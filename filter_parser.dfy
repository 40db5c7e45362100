/** The filter-string parser of the export tool: `"k1=v1,k2=v2"` becomes the
    query-parameter map `{k1: v1, k2: v2}`, or a parameter error. */
module FilterParser {
  import opened Basics
  import opened Strings

  type Filters = map<string, string>

  /** The two ValueErrors the parser raises, each naming the offending
      (stripped) piece. */
  datatype FilterError = MissingSeparator(item: string) | EmptyKey(item: string)

  /** The text of the ValueError. */
  function Message(e: FilterError): (m: string)
    ensures Contains(m, e.item)
  {
    match e
    case MissingSeparator(item) =>
      ContainsMiddle("Filter '", item, "' does not contain '=' separator");
      "Filter '" + item + "' does not contain '=' separator"
    case EmptyKey(item) =>
      ContainsMiddle("Empty key found in filter '", item, "'");
      "Empty key found in filter '" + item + "'"
  }

  /** What one comma-separated piece contributes to the result. */
  datatype Piece = Blank | Pair(key: string, value: string) | Malformed(error: FilterError)

  /** One piece: stripped, skipped when empty, otherwise split at its first
      `=` into a stripped key, which must not be empty, and a stripped value. */
  function ReadPiece(raw: string): Piece
  {
    ReadItem(Strip(raw, Whitespace))
  }

  /** A piece after stripping. */
  function ReadItem(item: string): Piece
  {
    if item == [] then Blank
    else if '=' !in item then Malformed(MissingSeparator(item))
    else
      var i := IndexOf(item, '=');
      var key := Strip(item[..i], Whitespace);
      var value := Strip(item[i + 1..], Whitespace);
      if key == [] then Malformed(EmptyKey(item)) else Pair(key, value)
  }

  /** Every comma-separated piece read on its own. */
  function Reads(raws: seq<string>): (ps: seq<Piece>)
    ensures |ps| == |raws|
    ensures forall i :: 0 <= i < |raws| ==> ps[i] == ReadPiece(raws[i])
  {
    seq(|raws|, i requires 0 <= i < |raws| => ReadPiece(raws[i]))
  }

  /** The pieces folded into `acc` from left to right: a pair overwrites the
      key, a blank piece is skipped, the first malformed piece is the error. */
  function Fold(acc: Filters, ps: seq<Piece>): Result<Filters, FilterError>
    decreases |ps|
  {
    if |ps| == 0 then Ok(acc)
    else
      match ps[0]
      case Blank => Fold(acc, ps[1..])
      case Malformed(e) => Err(e)
      case Pair(k, v) => Fold(acc[k := v], ps[1..])
  }

  /** What `parse_filter` returns (`Ok`) or raises (`Err`). */
  function Parse(filterStr: Option<string>): Result<Filters, FilterError>
  {
    if filterStr.None? || filterStr.value == "" then Ok(map[])
    else Fold(map[], Reads(Split(filterStr.value, ',')))
  }

  /** `parse_filter`: the loop over the comma-separated pieces, inserting
      into the result map, or the ValueError with the message of the first
      malformed piece. */
  method ParseFilter(filterStr: Option<string>) returns (r: Result<Filters, Exception>)
    ensures Parse(filterStr).Ok? ==> r == Ok(Parse(filterStr).value)
    ensures Parse(filterStr).Err? ==> r == Err(Exception(ValueError, Message(Parse(filterStr).error)))
  {
    if filterStr.None? || filterStr.value == "" {
      return Ok(map[]);
    }
    var pieces := Split(filterStr.value, ',');
    ghost var ps := Reads(pieces);
    var filters: Filters := map[];
    var i := 0;
    while i < |pieces|
      invariant 0 <= i <= |pieces|
      invariant Fold(filters, ps[i..]) == Parse(filterStr)
    {
      assert ps[i..][0] == ReadPiece(pieces[i]);
      assert ps[i..][1..] == ps[i + 1..];
      match ReadPiece(pieces[i]) {
        case Blank =>
        case Malformed(e) =>
          return Err(Exception(ValueError, Message(e)));
        case Pair(key, value) =>
          filters := filters[key := value];
      }
      i := i + 1;
    }
    return Ok(filters);
  }

  // ---------------------------------------------------------------------
  // One piece

  /** Only the first `=` splits a stripped piece: whatever follows it,
      further `=` included, is the value; key and value are stripped, and an
      empty key is an error while an empty value is not. */
  lemma ItemSplitsAtFirstEquals(a: string, b: string)
    requires '=' !in a
    ensures ReadItem(a + "=" + b) ==
      if Strip(a, Whitespace) == [] then Malformed(EmptyKey(a + "=" + b))
      else Pair(Strip(a, Whitespace), Strip(b, Whitespace))
  {
    var item := a + "=" + b;
    assert item[|a|] == '=';
    var i := IndexOf(item, '=');
    assert item[..|a|] == a;
    assert i == |a|;
    assert item[..i] == a && item[i + 1..] == b;
  }

  /** A non-blank piece without `=` is the error naming that piece. */
  lemma PieceWithoutEquals(raw: string)
    requires Strip(raw, Whitespace) != [] && '=' !in Strip(raw, Whitespace)
    ensures ReadPiece(raw) == Malformed(MissingSeparator(Strip(raw, Whitespace)))
  {
  }

  /** A piece is skipped exactly when it is blank after stripping. */
  lemma PieceBlank(raw: string)
    ensures ReadPiece(raw) == Blank <==> Strip(raw, Whitespace) == []
  {
  }

  // ---------------------------------------------------------------------
  // Errors

  /** `e` is the error of the first malformed piece of `ps`. */
  predicate FirstMalformed(ps: seq<Piece>, e: FilterError)
  {
    exists i :: 0 <= i < |ps| && ps[i] == Malformed(e) && NoMalformedBefore(ps, i)
  }

  predicate NoMalformedBefore(ps: seq<Piece>, i: int)
    requires 0 <= i <= |ps|
  {
    forall j :: 0 <= j < i ==> !ps[j].Malformed?
  }

  /** The fold fails exactly when some piece is malformed, and the error
      is the one of the first malformed piece. */
  lemma {:induction false} ErrorIsFirstMalformed(acc: Filters, ps: seq<Piece>, e: FilterError)
    decreases |ps|
    ensures Fold(acc, ps) == Err(e) <==> FirstMalformed(ps, e)
  {
    if |ps| > 0 {
      var next := if ps[0].Pair? then acc[ps[0].key := ps[0].value] else acc;
      ErrorIsFirstMalformed(next, ps[1..], e);
      if !ps[0].Malformed? {
        assert Fold(acc, ps) == Fold(next, ps[1..]);
        if FirstMalformed(ps[1..], e) {
          var i :| 0 <= i < |ps[1..]| && ps[1..][i] == Malformed(e) && NoMalformedBefore(ps[1..], i);
          assert ps[i + 1] == Malformed(e) && NoMalformedBefore(ps, i + 1);
        }
        if FirstMalformed(ps, e) {
          var i :| 0 <= i < |ps| && ps[i] == Malformed(e) && NoMalformedBefore(ps, i);
          assert ps[1..][i - 1] == Malformed(e) && NoMalformedBefore(ps[1..], i - 1);
        }
      } else {
        if FirstMalformed(ps, e) {
          var i :| 0 <= i < |ps| && ps[i] == Malformed(e) && NoMalformedBefore(ps, i);
          assert i == 0;
        }
        assert NoMalformedBefore(ps, 0);
      }
    }
  }

  /** `parse_filter` raises exactly when a piece of the input is malformed,
      and the error names the first such piece. */
  lemma ParseError(s: string, e: FilterError)
    ensures Parse(Some(s)) == Err(e) <==> FirstMalformed(Reads(Split(s, ',')), e)
  {
    var ps := Reads(Split(s, ','));
    if s != "" {
      ParseIsFold(s);
      ErrorIsFirstMalformed(map[], ps, e);
    } else {
      ReadsOfEmpty();
      NoneMalformedInBlank(e);
    }
  }

  lemma ParseIsFold(s: string)
    requires s != ""
    ensures Parse(Some(s)) == Fold(map[], Reads(Split(s, ',')))
  {
  }

  lemma ReadsOfEmpty()
    ensures Parse(Some("")) == Ok(map[]) && Reads(Split("", ',')) == [Blank]
  {
    assert Split("", ',') == [""];
    assert ReadPiece("") == Blank;
  }

  lemma NoneMalformedInBlank(e: FilterError)
    ensures !FirstMalformed([Blank], e)
  {
  }

  /** The ValueError's message names a piece of the input: the first
      malformed one, after stripping. */
  lemma ErrorMessageNamesPiece(s: string, e: FilterError)
    requires Parse(Some(s)) == Err(e)
    ensures exists i :: 0 <= i < |Split(s, ',')| && Contains(Message(e), Strip(Split(s, ',')[i], Whitespace))
  {
    ParseError(s, e);
    MessageNamesRead(Split(s, ','), e);
  }

  lemma MessageNamesRead(raws: seq<string>, e: FilterError)
    requires FirstMalformed(Reads(raws), e)
    ensures exists i :: 0 <= i < |raws| && Contains(Message(e), Strip(raws[i], Whitespace))
  {
    var i :| 0 <= i < |Reads(raws)| && Reads(raws)[i] == Malformed(e) && NoMalformedBefore(Reads(raws), i);
    MalformedNamesItem(raws[i]);
  }

  /** A malformed piece's error carries the stripped piece. */
  lemma MalformedNamesItem(raw: string)
    requires ReadPiece(raw).Malformed?
    ensures ReadPiece(raw).error.item == Strip(raw, Whitespace)
  {
  }

  // ---------------------------------------------------------------------
  // Where the keys and values come from

  /** Reference reading of "later duplicates win": the value of the last
      well-formed piece whose key is `k`, if there is one. */
  function LastValueFor(ps: seq<Piece>, k: string): Option<string>
    decreases |ps|
  {
    if |ps| == 0 then None
    else
      var p := ps[|ps| - 1];
      if p.Pair? && p.key == k then Some(p.value) else LastValueFor(ps[..|ps| - 1], k)
  }

  lemma {:induction false} LastValueForCons(head: Piece, tail: seq<Piece>, k: string)
    decreases |tail|
    ensures LastValueFor([head] + tail, k) ==
      if LastValueFor(tail, k).Some? then LastValueFor(tail, k)
      else if head.Pair? && head.key == k then Some(head.value)
      else None
  {
    var s := [head] + tail;
    if |tail| == 0 {
      assert s[..|s| - 1] == [];
    } else {
      assert s[|s| - 1] == tail[|tail| - 1];
      assert s[..|s| - 1] == [head] + tail[..|tail| - 1];
      LastValueForCons(head, tail[..|tail| - 1], k);
    }
  }

  /** On success, a key is in the result exactly when it was already in
      `acc` or some piece supplies it, and its value is that of the last
      piece supplying it (else the one from `acc`). */
  lemma {:induction false} ResultKeysAndValues(acc: Filters, ps: seq<Piece>, m: Filters)
    decreases |ps|
    requires Fold(acc, ps) == Ok(m)
    ensures forall k :: k in m <==> k in acc || LastValueFor(ps, k).Some?
    ensures forall k :: k in m ==>
      m[k] == if LastValueFor(ps, k).Some? then LastValueFor(ps, k).value else acc[k]
  {
    if |ps| > 0 {
      var p := ps[0];
      var next := if p.Pair? then acc[p.key := p.value] else acc;
      assert Fold(next, ps[1..]) == Ok(m);
      ResultKeysAndValues(next, ps[1..], m);
      assert [ps[0]] + ps[1..] == ps;
      forall k | true
        ensures LastValueFor(ps, k) ==
          if LastValueFor(ps[1..], k).Some? then LastValueFor(ps[1..], k)
          else if p.Pair? && p.key == k then Some(p.value)
          else None
      {
        LastValueForCons(ps[0], ps[1..], k);
      }
    }
  }

  /** `parse_filter` in terms of the pieces of the input: the keys of the
      result are those of the well-formed pieces, each with the value of its
      last occurrence. */
  lemma ParseKeysAndValues(s: string, m: Filters)
    requires Parse(Some(s)) == Ok(m)
    ensures forall k :: k in m <==> LastValueFor(Reads(Split(s, ',')), k).Some?
    ensures forall k :: k in m ==> m[k] == LastValueFor(Reads(Split(s, ',')), k).value
  {
    if s != "" {
      ResultKeysAndValues(map[], Reads(Split(s, ',')), m);
    } else {
      assert Split(s, ',') == [""];
      assert ReadPiece("") == Blank;
      assert Reads([""]) == [Blank];
    }
  }

  // ---------------------------------------------------------------------
  // Round trip

  /** A key/value pair that a filter string can carry unchanged: a non-empty
      key, both already stripped, no `,` in either and no `=` in the key. */
  predicate Printable(p: (string, string))
  {
    && p.0 != [] && Strip(p.0, Whitespace) == p.0 && Strip(p.1, Whitespace) == p.1
    && ',' !in p.0 && '=' !in p.0 && ',' !in p.1
  }

  /** The filter string `k1=v1,k2=v2,...` for a list of pairs. */
  function Format(pairs: seq<(string, string)>): string
  {
    Join(Items(pairs), ',')
  }

  function Items(pairs: seq<(string, string)>): (items: seq<string>)
    ensures |items| == |pairs|
  {
    seq(|pairs|, i requires 0 <= i < |pairs| => pairs[i].0 + "=" + pairs[i].1)
  }

  /** The pairs inserted into `acc` in order, later ones overwriting. */
  function InsertAll(acc: Filters, pairs: seq<(string, string)>): Filters
    decreases |pairs|
  {
    if |pairs| == 0 then acc else InsertAll(acc[pairs[0].0 := pairs[0].1], pairs[1..])
  }

  lemma ReadPrintable(p: (string, string))
    requires Printable(p)
    ensures ReadPiece(p.0 + "=" + p.1) == Pair(p.0, p.1)
  {
    var item := p.0 + "=" + p.1;
    StripUnchanged(p.0, Whitespace);
    assert item[0] == p.0[0];
    if p.1 == [] {
      assert item[|item| - 1] == '=';
    } else {
      StripUnchanged(p.1, Whitespace);
      assert item[|item| - 1] == p.1[|p.1| - 1];
    }
    StripUnchanged(item, Whitespace);
    ItemSplitsAtFirstEquals(p.0, p.1);
  }

  /** The pieces a list of pairs reads as. */
  function AsPairs(pairs: seq<(string, string)>): (ps: seq<Piece>)
    ensures |ps| == |pairs|
  {
    seq(|pairs|, i requires 0 <= i < |pairs| => Pair(pairs[i].0, pairs[i].1))
  }

  lemma {:induction false} FoldPairs(acc: Filters, pairs: seq<(string, string)>)
    decreases |pairs|
    ensures Fold(acc, AsPairs(pairs)) == Ok(InsertAll(acc, pairs))
  {
    if |pairs| > 0 {
      assert AsPairs(pairs)[1..] == AsPairs(pairs[1..]);
      FoldPairs(acc[pairs[0].0 := pairs[0].1], pairs[1..]);
    }
  }

  /** Formatting printable pairs and parsing the result gives the map that
      inserting the pairs in order gives. */
  lemma FormatThenParse(pairs: seq<(string, string)>)
    requires forall i :: 0 <= i < |pairs| ==> Printable(pairs[i])
    ensures Parse(Some(Format(pairs))) == Ok(InsertAll(map[], pairs))
  {
    if |pairs| > 0 {
      var items := Items(pairs);
      forall i | 0 <= i < |items| ensures ',' !in items[i] {
        assert items[i] == pairs[i].0 + "=" + pairs[i].1;
      }
      SplitJoin(items, ',');
      forall i | 0 <= i < |items| ensures Reads(items)[i] == AsPairs(pairs)[i] {
        ReadPrintable(pairs[i]);
      }
      assert Reads(items) == AsPairs(pairs);
      FoldPairs(map[], pairs);
    }
  }

  // ---------------------------------------------------------------------
  // Examples

  /** `None` and the empty string give the empty map. */
  lemma EmptyInputs()
    ensures Parse(None) == Ok(map[]) && Parse(Some("")) == Ok(map[])
  {
  }

  /** Blank pieces are skipped: `"k1=v1,,k2=v2,"` gives `{k1: v1, k2: v2}`
      (the value of `k2` winning when the keys coincide). */
  lemma BlankPiecesSkipped(p: (string, string), q: (string, string))
    requires Printable(p) && Printable(q)
    ensures Parse(Some(p.0 + "=" + p.1 + ",," + q.0 + "=" + q.1 + ",")) ==
      Ok(map[p.0 := p.1][q.0 := q.1])
  {
    var a, b := p.0 + "=" + p.1, q.0 + "=" + q.1;
    assert p.0 + "=" + p.1 + ",," + q.0 + "=" + q.1 + "," == a + ",," + b + ",";
    SplitPairBlankPairBlank(a, b);
    ReadPrintable(p);
    ReadPrintable(q);
    ReadsPairBlankPairBlank(a, b);
    FoldPairBlankPairBlank(map[], p, q);
  }

  lemma SplitPairBlankPairBlank(a: string, b: string)
    requires ',' !in a && ',' !in b
    ensures Split(a + ",," + b + ",", ',') == [a, "", b, ""]
  {
    var raws := [a, "", b, ""];
    assert Join(raws[2..], ',') == b + ",";
    assert Join(raws[1..], ',') == "," + b + ",";
    assert Join(raws, ',') == a + ",," + b + ",";
    SplitJoin(raws, ',');
  }

  lemma ReadsPairBlankPairBlank(a: string, b: string)
    ensures Reads([a, "", b, ""]) == [ReadPiece(a), Blank, ReadPiece(b), Blank]
  {
    var ps := Reads([a, "", b, ""]);
    assert ReadPiece("") == Blank;
    OfLengthFour(ps);
  }

  lemma FoldPairBlankPairBlank(acc: Filters, p: (string, string), q: (string, string))
    ensures Fold(acc, [Pair(p.0, p.1), Blank, Pair(q.0, q.1), Blank]) == Ok(acc[p.0 := p.1][q.0 := q.1])
  {
    var ps := [Pair(p.0, p.1), Blank, Pair(q.0, q.1), Blank];
    var m := acc[p.0 := p.1][q.0 := q.1];
    assert ps[3..] == [Blank] && Fold(m, ps[3..]) == Ok(m);
    assert ps[2..] == [Pair(q.0, q.1), Blank] && Fold(acc[p.0 := p.1], ps[2..]) == Ok(m);
    assert ps[1..] == [Blank, Pair(q.0, q.1), Blank] && Fold(acc[p.0 := p.1], ps[1..]) == Ok(m);
  }

  lemma OfLengthFour<T>(s: seq<T>)
    requires |s| == 4
    ensures s == [s[0], s[1], s[2], s[3]]
  {
  }
}
