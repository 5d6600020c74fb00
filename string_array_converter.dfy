/**
 * The JPA attribute converter that stores an accommodation's amenity list in one column:
 * `String.join(", ", ...)` on the way in, `String.split(", ")` on the way out.
 * A Java `null` is `None`.
 */
module StringArrayConverter {
  import opened Common

  const Separator: string := ", "

  /** `s` holds the separator at position `i`. */
  predicate SeparatorAt(s: string, i: nat) {
    i + 2 <= |s| && s[i] == ',' && s[i + 1] == ' '
  }

  predicate ContainsSeparator(s: string) {
    exists i: nat | i < |s| :: SeparatorAt(s, i)
  }

  predicate EndsWithSeparator(s: string) {
    |s| >= 2 && SeparatorAt(s, |s| - 2)
  }

  /** `String.join(", ", parts)`: the parts with the separator between neighbours. */
  function Join(parts: seq<string>): (r: string)
    ensures parts == [] ==> r == ""
    ensures |parts| >= 1 ==> parts[0] <= r
    ensures |parts| >= 2 ==> parts[0] + Separator <= r
    ensures |parts| >= 1 ==> |r| >= |Separator| * (|parts| - 1)
  {
    if |parts| == 0 then ""
    else if |parts| == 1 then parts[0]
    else parts[0] + Separator + Join(parts[1..])
  }

  /**
   * The pieces between the separator matches of `s`, found left to right, every empty
   * piece kept. Without a match this is `[s]`, as in `String.split`.
   */
  function Pieces(s: string): (r: seq<string>)
    ensures |r| >= 1
    ensures r[0] <= s
    ensures forall k :: 0 <= k < |r| ==> !ContainsSeparator(r[k])
    decreases |s|
  {
    if |s| == 0 then [""]
    else if SeparatorAt(s, 0) then [""] + Pieces(s[2..])
    else
      var rest := Pieces(s[1..]);
      var first := [s[0]] + rest[0];
      assert !ContainsSeparator(first) by {
        forall i: nat ensures !SeparatorAt(first, i) {
          if i == 0 {
            if |first| >= 2 { assert first[1] == s[1]; }
          } else if i + 2 <= |first| {
            assert first[i] == rest[0][i - 1] && first[i + 1] == rest[0][i];
            assert !SeparatorAt(rest[0], i - 1);
          }
        }
      }
      [first] + rest[1..]
  }

  /** With limit 0, `String.split` removes the empty strings at the end of its result. */
  function DropTrailingEmpty(p: seq<string>): (r: seq<string>)
    ensures r <= p
    ensures r == [] || r[|r| - 1] != ""
    ensures forall k :: |r| <= k < |p| ==> p[k] == ""
  {
    if |p| == 0 then []
    else if p[|p| - 1] == "" then DropTrailingEmpty(p[..|p| - 1])
    else p
  }

  /** `convertToDatabaseColumn`. */
  function ConvertToDatabaseColumn(attribute: Option<seq<string>>): (r: Option<string>)
    ensures r.None? <==> attribute.None?
    ensures attribute == Some([]) ==> r == Some("")
  {
    match attribute
    case None => None
    case Some(parts) => Some(Join(parts))
  }

  /** `convertToEntityAttribute`: a null or empty column is an empty array, never null. */
  function ConvertToEntityAttribute(dbData: Option<string>): (r: seq<string>)
    ensures dbData.None? || dbData == Some("") ==> r == []
    ensures r == [] || r[|r| - 1] != ""
    ensures forall k :: 0 <= k < |r| ==> !ContainsSeparator(r[k])
  {
    if dbData.None? || dbData.value == "" then []
    else DropTrailingEmpty(Pieces(dbData.value))
  }

  /** A piece free of the separator, followed by a separator, splits off as one piece. */
  lemma {:induction false} PiecesOfSeparated(e: string, t: string)
    requires !ContainsSeparator(e)
    ensures Pieces(e + Separator + t) == [e] + Pieces(t)
    decreases |e|
  {
    var s := e + Separator + t;
    if |e| == 0 {
      assert SeparatorAt(s, 0);
      assert s[2..] == t;
    } else {
      assert !SeparatorAt(s, 0) by {
        if |e| >= 2 { assert !SeparatorAt(e, 0); }
      }
      assert !ContainsSeparator(e[1..]) by {
        forall i: nat | SeparatorAt(e[1..], i) ensures false { assert SeparatorAt(e, i + 1); }
      }
      assert s[1..] == e[1..] + Separator + t;
      PiecesOfSeparated(e[1..], t);
      assert [e[0]] + e[1..] == e;
    }
  }

  /** A string free of the separator is one piece. */
  lemma {:induction false} PiecesOfPlain(e: string)
    requires !ContainsSeparator(e)
    ensures Pieces(e) == [e]
    decreases |e|
  {
    if |e| > 0 {
      assert !SeparatorAt(e, 0);
      assert !ContainsSeparator(e[1..]) by {
        forall i: nat | SeparatorAt(e[1..], i) ensures false { assert SeparatorAt(e, i + 1); }
      }
      PiecesOfPlain(e[1..]);
      assert [e[0]] + e[1..] == e;
    }
  }

  /** Splitting a join gives back its parts, as long as no part holds the separator. */
  lemma {:induction false} PiecesOfJoin(parts: seq<string>)
    requires |parts| >= 1
    requires forall k :: 0 <= k < |parts| ==> !ContainsSeparator(parts[k])
    ensures Pieces(Join(parts)) == parts
  {
    if |parts| == 1 {
      PiecesOfPlain(parts[0]);
    } else {
      PiecesOfJoin(parts[1..]);
      PiecesOfSeparated(parts[0], Join(parts[1..]));
      assert [parts[0]] + parts[1..] == parts;
    }
  }

  /** Joining the pieces of a string gives back the string. */
  lemma {:induction false} JoinOfPieces(s: string)
    ensures Join(Pieces(s)) == s
    decreases |s|
  {
    if |s| == 0 {
    } else if SeparatorAt(s, 0) {
      JoinOfPieces(s[2..]);
      var p := [""] + Pieces(s[2..]);
      assert p[1..] == Pieces(s[2..]);
      assert s == Separator + s[2..];
    } else {
      JoinOfPieces(s[1..]);
      var rest := Pieces(s[1..]);
      JoinExtendsFirst([s[0]], rest);
      assert [s[0]] + s[1..] == s;
    }
  }

  lemma {:induction false} JoinExtendsFirst(x: string, parts: seq<string>)
    requires |parts| >= 1
    ensures Join([x + parts[0]] + parts[1..]) == x + Join(parts)
  {
    var q := [x + parts[0]] + parts[1..];
    if |parts| == 1 {
      assert q == [x + parts[0]];
    } else {
      assert |q| > 1 && q[0] == x + parts[0] && q[1..] == parts[1..];
      var tail := Join(parts[1..]);
      assert Join(q) == (x + parts[0]) + Separator + tail;
      assert Join(parts) == parts[0] + Separator + tail;
      assert (x + parts[0]) + Separator + tail == x + (parts[0] + Separator + tail);
    }
  }

  /** The last piece is empty only when the string ends with the separator. */
  lemma {:induction false} LastPieceEmpty(s: string)
    requires s != ""
    requires Pieces(s)[|Pieces(s)| - 1] == ""
    ensures EndsWithSeparator(s)
    decreases |s|
  {
    if SeparatorAt(s, 0) {
      var t := s[2..];
      if t != "" {
        assert Pieces(s)[|Pieces(s)| - 1] == Pieces(t)[|Pieces(t)| - 1];
        LastPieceEmpty(t);
        assert SeparatorAt(t, |t| - 2);
      }
    } else {
      var t := s[1..];
      var rest := Pieces(t);
      if |rest| == 1 {
        assert false;
      } else {
        assert t != "";
        assert Pieces(s)[|Pieces(s)| - 1] == rest[|rest| - 1];
        LastPieceEmpty(t);
        assert SeparatorAt(t, |t| - 2);
      }
    }
  }

  /**
   * Round trip through the column: an array comes back unchanged when no element holds
   * the separator and it does not end with an empty element.
   */
  lemma RoundTrip(parts: seq<string>)
    requires forall k :: 0 <= k < |parts| ==> !ContainsSeparator(parts[k])
    requires parts == [] || parts[|parts| - 1] != ""
    ensures ConvertToEntityAttribute(ConvertToDatabaseColumn(Some(parts))) == parts
  {
    if parts != [] {
      PiecesOfJoin(parts);
      assert Join(parts) != "" by {
        if |parts| > 1 { assert Join(parts) == parts[0] + Separator + Join(parts[1..]); }
      }
    }
  }

  /** Round trip through the array: a column value comes back unchanged unless it ends with the separator. */
  lemma ReverseRoundTrip(s: string)
    requires !EndsWithSeparator(s)
    ensures ConvertToDatabaseColumn(Some(ConvertToEntityAttribute(Some(s)))) == Some(s)
  {
    if s != "" {
      var p := Pieces(s);
      if p[|p| - 1] == "" {
        LastPieceEmpty(s);
      }
      JoinOfPieces(s);
    }
  }

  /** A leading separator yields a leading empty element; only trailing ones are dropped. */
  lemma LeadingEmptyPieceKept(s: string)
    requires SeparatorAt(s, 0)
    requires !EndsWithSeparator(s)
    ensures |ConvertToEntityAttribute(Some(s))| >= 2
    ensures ConvertToEntityAttribute(Some(s))[0] == ""
  {
    var p := Pieces(s);
    if p[|p| - 1] == "" {
      LastPieceEmpty(s);
    }
  }
}
