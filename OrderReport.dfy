/** `order_by_date`: the report of the orders of one day. The rows (each an
    order joined with its product and material, already filtered by date and
    ordered by creation time) and the modifier table are parameters. The
    stored modifier strings are split back into codes, the codes of all rows
    are collected, their names are looked up once, and each row becomes one
    report line. */
module OrderReport {
  import opened Text
  import opened Catalog
  import opened OrderService

  /** One row of the date query. */
  datatype Row = Row(order: Order, product: Product, material: Material)

  /** The fields one report line shows; the text layout around them is not
      modelled. */
  datatype Line = Line(
    productName: string,
    materialName: string,
    quantity: int,
    modifierNames: string,
    price: real,
    deadlineDays: int)

  /** The reply: a "no orders" message, or one line per row. */
  datatype Reply = NoOrdersFound | Report(lines: seq<Line>)

  // ------------------------------------------------------------ code collection

  /** The codes one stored string contributes: none when it is empty, its
      comma-separated fields otherwise. */
  function StoredCodes(stored: string): set<string>
  {
    if stored == "" then {} else set c | c in Split(stored, ',')
  }

  /** The codes of all rows, row after row. */
  function CodesOf(rows: seq<Row>): set<string>
  {
    if rows == [] then {}
    else CodesOf(rows[..|rows| - 1]) + StoredCodes(rows[|rows| - 1].order.modifiers)
  }

  /** The loop that fills the code set, one row at a time. */
  method CollectModifierCodes(rows: seq<Row>) returns (codes: set<string>)
    ensures codes == CodesOf(rows)
  {
    codes := {};
    var i := 0;
    while i < |rows|
      invariant 0 <= i <= |rows|
      invariant codes == CodesOf(rows[..i])
    {
      assert rows[..i + 1][..i] == rows[..i];
      if rows[i].order.modifiers != "" {
        codes := codes + set c | c in Split(rows[i].order.modifiers, ',');
      }
      i := i + 1;
    }
    assert rows[..i] == rows;
  }

  /** A code is collected exactly when it is a field of the non-empty
      modifier string of some row; rows with an empty string add nothing. */
  lemma {:induction false} CodesOfMembers(rows: seq<Row>, c: string)
    ensures c in CodesOf(rows) <==>
      exists i :: 0 <= i < |rows| && rows[i].order.modifiers != ""
                  && c in Split(rows[i].order.modifiers, ',')
  {
    if rows != [] {
      var init := rows[..|rows| - 1];
      CodesOfMembers(init, c);
      if c in CodesOf(init) {
        var i :| 0 <= i < |init| && init[i].order.modifiers != ""
                 && c in Split(init[i].order.modifiers, ',');
        assert rows[i] == init[i];
      }
      if exists i :: 0 <= i < |rows| && rows[i].order.modifiers != ""
                     && c in Split(rows[i].order.modifiers, ',') {
        var i :| 0 <= i < |rows| && rows[i].order.modifiers != ""
                 && c in Split(rows[i].order.modifiers, ',');
        if i < |rows| - 1 {
          assert init[i] == rows[i];
        }
      }
    }
  }

  /** Days whose orders all have no modifiers collect no codes, so no name
      lookup is made. */
  lemma NoModifiersNoCodes(rows: seq<Row>)
    requires forall i :: 0 <= i < |rows| ==> rows[i].order.modifiers == ""
    ensures CodesOf(rows) == {}
  {
    forall c
      ensures c !in CodesOf(rows)
    {
      CodesOfMembers(rows, c);
    }
  }

  /** An order stored from a list of storable codes contributes exactly
      those codes; one stored from no codes contributes none. */
  lemma StoredOrderCodes(codes: seq<string>)
    requires Storable(codes)
    ensures StoredCodes(SerializeCodes(codes)) == set c | c in codes
  {
    if codes != [] {
      StoredCodesRoundTrip(codes);
    }
  }

  // ------------------------------------------------------------ names

  /** `{m.code: m.name for m in mods}` over the modifiers whose code is in
      the set, in table order: a later row with the same code overwrites an
      earlier one. */
  function NamesFor(modifiers: seq<Modifier>, codes: set<string>): (names: map<string, string>)
    ensures forall c :: c in names <==>
      c in codes && exists i :: 0 <= i < |modifiers| && modifiers[i].code == c
    ensures forall c :: c in names ==>
      exists i :: 0 <= i < |modifiers| && modifiers[i].code == c && modifiers[i].name == names[c]
  {
    if modifiers == [] then map[]
    else
      var init := modifiers[..|modifiers| - 1];
      var m := modifiers[|modifiers| - 1];
      var rest := NamesFor(init, codes);
      assert forall i :: 0 <= i < |init| ==> init[i] == modifiers[i];
      if m.code in codes then rest[m.code := m.name] else rest
  }

  /** The name map: empty without a query when no code was collected. */
  function NameMap(modifiers: seq<Modifier>, codes: set<string>): map<string, string>
  {
    if codes == {} then map[] else NamesFor(modifiers, codes)
  }

  /** Codes are unique in the modifier table. */
  predicate UniqueCodes(modifiers: seq<Modifier>)
  {
    forall i, j :: 0 <= i < j < |modifiers| ==> modifiers[i].code != modifiers[j].code
  }

  /** The name shown for a code: its modifier's name when the map has one,
      the code itself otherwise. */
  function DisplayName(names: map<string, string>, code: string): string
  {
    if code in names then names[code] else code
  }

  function DisplayNames(names: map<string, string>, codes: seq<string>): (shown: seq<string>)
    ensures |shown| == |codes|
    ensures forall i :: 0 <= i < |codes| ==> shown[i] == DisplayName(names, codes[i])
  {
    seq(|codes|, i requires 0 <= i < |codes| => DisplayName(names, codes[i]))
  }

  /** A collected code is shown as the name of the modifier carrying it, and
      a code no modifier carries is shown as it is. */
  lemma CollectedCodeShown(modifiers: seq<Modifier>, codes: set<string>, c: string)
    requires UniqueCodes(modifiers)
    requires c in codes
    ensures forall j :: 0 <= j < |modifiers| && modifiers[j].code == c ==>
              DisplayName(NameMap(modifiers, codes), c) == modifiers[j].name
    ensures (forall j :: 0 <= j < |modifiers| ==> modifiers[j].code != c) ==>
              DisplayName(NameMap(modifiers, codes), c) == c
  {
    var names := NameMap(modifiers, codes);
    forall j | 0 <= j < |modifiers| && modifiers[j].code == c
      ensures DisplayName(names, c) == modifiers[j].name
    {
      var k :| 0 <= k < |modifiers| && modifiers[k].code == c && modifiers[k].name == names[c];
    }
  }

  // ------------------------------------------------------------ rendering

  /** The modifier column of a line: "—" for an empty stored string,
      otherwise the display names of its fields, in stored order, joined
      with ", ". */
  function RenderModifiers(stored: string, names: map<string, string>): string
  {
    if stored == "" then "—" else Join(DisplayNames(names, Split(stored, ',')), ", ")
  }

  /** An order stored from a non-empty list of storable codes shows the
      display names of exactly those codes, in their order; one stored from
      no codes shows "—". */
  lemma RenderStoredCodes(codes: seq<string>, names: map<string, string>)
    requires Storable(codes)
    ensures codes == [] ==> RenderModifiers(SerializeCodes(codes), names) == "—"
    ensures codes != [] ==>
      RenderModifiers(SerializeCodes(codes), names) == Join(DisplayNames(names, codes), ", ")
  {
    if codes != [] {
      StoredCodesRoundTrip(codes);
    }
  }

  /** With no names known every field is shown as its raw code. */
  lemma UnknownCodesShownRaw(stored: string)
    requires stored != ""
    ensures RenderModifiers(stored, map[]) == Join(Split(stored, ','), ", ")
  {
    assert DisplayNames(map[], Split(stored, ',')) == Split(stored, ',');
  }

  function LineFor(row: Row, names: map<string, string>): Line
  {
    Line(row.product.name, row.material.name, row.order.quantity,
         RenderModifiers(row.order.modifiers, names), row.order.price, row.order.deadlineDays)
  }

  /** The reply for the rows of a day. */
  function OrderReply(rows: seq<Row>, modifiers: seq<Modifier>): Reply
  {
    if rows == [] then NoOrdersFound
    else
      var names := NameMap(modifiers, CodesOf(rows));
      Report(seq(|rows|, i requires 0 <= i < |rows| => LineFor(rows[i], names)))
  }

  /** The response loop: one line per row, in row order. */
  method BuildLines(rows: seq<Row>, names: map<string, string>) returns (lines: seq<Line>)
    ensures |lines| == |rows|
    ensures forall i :: 0 <= i < |rows| ==> lines[i] == LineFor(rows[i], names)
  {
    lines := [];
    var i := 0;
    while i < |rows|
      invariant 0 <= i <= |rows|
      invariant |lines| == i
      invariant forall k :: 0 <= k < i ==> lines[k] == LineFor(rows[k], names)
    {
      lines := lines + [LineFor(rows[i], names)];
      i := i + 1;
    }
  }

  /** `order_by_date` once the date is parsed and the rows are read. */
  method OrderByDate(rows: seq<Row>, modifiers: seq<Modifier>) returns (reply: Reply)
    ensures reply == OrderReply(rows, modifiers)
  {
    if rows == [] {
      return NoOrdersFound;
    }
    var codes := CollectModifierCodes(rows);
    var names: map<string, string> := map[];
    if codes != {} {
      names := NamesFor(modifiers, codes);
    }
    var lines := BuildLines(rows, names);
    reply := Report(lines);
  }

  /** Each line of a report shows its own order's fields, and an order
      stored from storable codes shows, for each code in order, the name of
      the modifier carrying it or else the code. */
  lemma ReportLineOfStoredOrder(rows: seq<Row>, modifiers: seq<Modifier>, i: int,
                                codes: seq<string>)
    requires 0 <= i < |rows|
    requires rows[i].order.modifiers == SerializeCodes(codes)
    requires codes != [] && Storable(codes)
    ensures OrderReply(rows, modifiers).Report?
    ensures var line := OrderReply(rows, modifiers).lines[i];
            line.quantity == rows[i].order.quantity && line.price == rows[i].order.price
            && line.deadlineDays == rows[i].order.deadlineDays
            && line.modifierNames
               == Join(DisplayNames(NameMap(modifiers, CodesOf(rows)), codes), ", ")
    ensures forall k :: 0 <= k < |codes| ==> codes[k] in CodesOf(rows)
  {
    RenderStoredCodes(codes, NameMap(modifiers, CodesOf(rows)));
    StoredCodesRoundTrip(codes);
    forall k | 0 <= k < |codes|
      ensures codes[k] in CodesOf(rows)
    {
      CodesOfMembers(rows, codes[k]);
    }
  }
}
