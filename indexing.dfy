/** Assembly of the batch of documents sent to the vector store: one document
    per row, numbered by its position in the batch. */
module Indexing {
  import opened Catalog

  /** The metadata stored beside each vector. */
  datatype Metadata = Metadata(product: string, category: string, brand: string, description: string)

  /** One indexed document; the embedding vector `V` is opaque here. */
  datatype Document<V> = Document(id: nat, vector: V, metadata: Metadata)

  function MetadataOf(row: Product): Metadata
  {
    Metadata(row.product, row.category, row.brand, row.description)
  }

  function Min(a: nat, b: nat): nat
  {
    if a <= b then a else b
  }

  /** `enumerate(zip(labels, rows, vectors), start)` turned into documents:
      `zip` stops at the shortest input, and the counter, not the row label,
      becomes the id. */
  function Enumerated<V>(start: nat, labels: seq<int>, rows: seq<Product>, vectors: seq<V>): (docs: seq<Document<V>>)
    ensures |docs| == Min(|labels|, Min(|rows|, |vectors|))
    ensures forall i :: 0 <= i < |docs| ==>
      docs[i].id == start + i && docs[i].vector == vectors[i] &&
      docs[i].metadata == Metadata(rows[i].product, rows[i].category, rows[i].brand, rows[i].description)
    decreases |rows|
  {
    if labels == [] || rows == [] || vectors == [] then []
    else [Document(start, vectors[0], MetadataOf(rows[0]))] + Enumerated(start + 1, labels[1..], rows[1..], vectors[1..])
  }

  /** The batch built at startup: ids count from 0. */
  function Documents<V>(labels: seq<int>, rows: seq<Product>, vectors: seq<V>): (docs: seq<Document<V>>)
    ensures |docs| == Min(|labels|, Min(|rows|, |vectors|))
    ensures forall i :: 0 <= i < |docs| ==> docs[i].id == i
  {
    Enumerated(0, labels, rows, vectors)
  }

  /** The ids of a batch, in batch order. */
  function Ids<V>(docs: seq<Document<V>>): (r: seq<nat>)
    ensures |r| == |docs| && forall i :: 0 <= i < |docs| ==> r[i] == docs[i].id
  {
    if docs == [] then [] else [docs[0].id] + Ids(docs[1..])
  }

  /** `0, 1, …, n - 1`. */
  function Range(n: nat): (r: seq<nat>)
    ensures |r| == n && forall i :: 0 <= i < n ==> r[i] == i
  {
    if n == 0 then [] else Range(n - 1) + [n - 1]
  }

  /** A table whose labels, rows and vectors line up gives one document per
      row, with ids 0..n-1 in row order, that row's vector and that row's
      four fields unchanged. */
  lemma BatchMatchesCatalog<V>(labels: seq<int>, rows: seq<Product>, vectors: seq<V>)
    requires |labels| == |rows| == |vectors|
    ensures Ids(Documents(labels, rows, vectors)) == Range(|rows|)
    ensures forall i :: 0 <= i < |rows| ==>
      Documents(labels, rows, vectors)[i] == Document(i, vectors[i], MetadataOf(rows[i]))
  {

  }

  /** Ids are unique within a batch. */
  lemma IdsAreUnique<V>(labels: seq<int>, rows: seq<Product>, vectors: seq<V>, i: nat, j: nat)
    requires i < j < |Documents(labels, rows, vectors)|
    ensures Documents(labels, rows, vectors)[i].id != Documents(labels, rows, vectors)[j].id
  {
  }

  /** The row labels of the table play no part in the batch beyond their count. */
  lemma IdsIgnoreLabels<V>(start: nat, l1: seq<int>, l2: seq<int>, rows: seq<Product>, vectors: seq<V>)
    requires |l1| == |l2|
    ensures Enumerated(start, l1, rows, vectors) == Enumerated(start, l2, rows, vectors)
  {

  }

  /** Two indexing runs over tables of the same size produce the same ids, so
      ids are not unique across runs. */
  lemma RunsReuseIds<V>(l1: seq<int>, r1: seq<Product>, v1: seq<V>, l2: seq<int>, r2: seq<Product>, v2: seq<V>)
    requires |l1| == |r1| == |v1| == |l2| == |r2| == |v2|
    ensures Ids(Documents(l1, r1, v1)) == Ids(Documents(l2, r2, v2))
  {

  }
}
