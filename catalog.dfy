/** Catalog rows and the searchable `input_text` column derived from them. */
module Catalog {

  /** One row of the product table, with the four columns the pipeline reads. */
  datatype Product = Product(product: string, description: string, category: string, brand: string)

  /** The searchable text of one row: its product name, a single space and its
      description, neither of them trimmed. */
  function InputText(product: string, description: string): (r: string)
    ensures |r| == |product| + 1 + |description|
    ensures r[..|product|] == product && r[|product|] == ' ' && r[|product| + 1..] == description
  {
    product + " " + description
  }

  /** The `product` column of the table. */
  function Products(rows: seq<Product>): (r: seq<string>)
    ensures |r| == |rows| && forall i :: 0 <= i < |rows| ==> r[i] == rows[i].product
  {
    if rows == [] then [] else [rows[0].product] + Products(rows[1..])
  }

  /** The `description` column of the table. */
  function Descriptions(rows: seq<Product>): (r: seq<string>)
    ensures |r| == |rows| && forall i :: 0 <= i < |rows| ==> r[i] == rows[i].description
  {
    if rows == [] then [] else [rows[0].description] + Descriptions(rows[1..])
  }

  /** The column-wise sum `product + " " + description`: one composed text per
      row, in row order. */
  function Corpus(products: seq<string>, descriptions: seq<string>): (r: seq<string>)
    requires |products| == |descriptions|
    ensures |r| == |products|
    ensures forall i :: 0 <= i < |r| ==> r[i] == InputText(products[i], descriptions[i])
  {
    if products == [] then []
    else [InputText(products[0], descriptions[0])] + Corpus(products[1..], descriptions[1..])
  }

  /** The corpus of a whole table: row `i` of the table gives entry `i`. */
  lemma CorpusOfRows(rows: seq<Product>, i: nat)
    requires i < |rows|
    ensures |Corpus(Products(rows), Descriptions(rows))| == |rows|
    ensures Corpus(Products(rows), Descriptions(rows))[i] == InputText(rows[i].product, rows[i].description)
  {
  }

  /** Adds the `input_text` column: fills a new array, row by row, with the
      composed text of each row. */
  method ComposeInputText(product: array<string>, description: array<string>) returns (inputText: array<string>)
    requires product.Length == description.Length
    ensures fresh(inputText) && inputText.Length == product.Length
    ensures inputText[..] == Corpus(product[..], description[..])
  {
    inputText := new string[product.Length];
    var i := 0;
    while i < product.Length
      invariant 0 <= i <= product.Length
      invariant forall k :: 0 <= k < i ==> inputText[k] == InputText(product[k], description[k])
    {
      inputText[i] := product[i] + " " + description[i];
      i := i + 1;
    }
    assert forall k :: 0 <= k < product.Length ==>
      inputText[..][k] == Corpus(product[..], description[..])[k];
  }
}
