/** `create_order`: the record an order is stored as. The selected modifier
    codes are stored as one string, joined with commas. */
module OrderService {
  import opened Text

  /** A stored order; its id and creation time are given by the database and
      are not part of this record. */
  datatype Order = Order(
    userId: int,
    productId: int,
    quantity: int,
    materialId: int,
    modifiers: string,
    price: real,
    deadlineDays: int)

  /** The stored form of a list of modifier codes: "" for no codes,
      otherwise the codes joined with ",". */
  function SerializeCodes(codes: seq<string>): (stored: string)
    ensures codes == [] ==> stored == ""
    ensures |codes| == 1 ==> stored == codes[0]
  {
    if codes == [] then "" else Join(codes, ",")
  }

  /** The order record built from the calculation's answers. */
  function CreateOrder(userId: int, productId: int, quantity: int, materialId: int,
                       codes: seq<string>, price: real, deadlineDays: int): (o: Order)
    ensures o.modifiers == SerializeCodes(codes)
    ensures o.userId == userId && o.productId == productId && o.materialId == materialId
    ensures o.quantity == quantity && o.price == price && o.deadlineDays == deadlineDays
  {
    Order(userId, productId, quantity, materialId, SerializeCodes(codes), price, deadlineDays)
  }

  /** A code that can be stored and read back: not empty, without a comma. */
  predicate Storable(codes: seq<string>)
  {
    forall i :: 0 <= i < |codes| ==> codes[i] != "" && ',' !in codes[i]
  }

  /** Storing a non-empty list of storable codes gives a non-empty string
      that splits back into the same list, in the same order. */
  lemma StoredCodesRoundTrip(codes: seq<string>)
    requires codes != [] && Storable(codes)
    ensures SerializeCodes(codes) != ""
    ensures Split(SerializeCodes(codes), ',') == codes
  {
    SplitJoin(codes, ',');
    if |codes| > 1 {
      assert Join(codes, ",") == codes[0] + "," + Join(codes[1..], ",");
    }
  }

  /** Without the storable condition the round trip fails: a single empty
      code is stored as "", the same string as no codes at all, and a code
      holding a comma reads back as two codes. */
  lemma StoredCodesAmbiguous()
    ensures SerializeCodes([""]) == SerializeCodes([])
    ensures Split(SerializeCodes(["a,b"]), ',') == ["a", "b"]
  {
    assert "a,b" == "a" + [','] + "b";
    SplitAppend("a", "b", ',');
    SplitSingleField("a", ',');
    SplitSingleField("b", ',');
  }
}
