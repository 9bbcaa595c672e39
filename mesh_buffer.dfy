/** What a Mesh (Mesh.h) receives when it is constructed: the vertex floats, the
    indices and the two counts handed to glBufferData. Every vertex is
    interleaved as position(3), texcoord(2), normal(3). The GL buffer objects
    themselves are not modelled. */
module MeshBuffer {
  /** Floats per interleaved vertex, the stride of Mesh.h's attribute pointers. */
  const FloatsPerVertex := 8

  datatype Mesh = Mesh(vertexData: seq<real>, indexData: seq<int>, vertexCount: int, indexCount: int)

  /** The counts the constructor is given agree with the arrays it uploads, and
      every index refers to a vertex that exists. */
  ghost predicate WellFormed(m: Mesh) {
    m.vertexCount == |m.vertexData| && m.indexCount == |m.indexData|
    && |m.vertexData| % FloatsPerVertex == 0
    && forall k :: 0 <= k < |m.indexData| ==> 0 <= m.indexData[k] < |m.vertexData| / FloatsPerVertex
  }
}
