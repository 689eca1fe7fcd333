/** Text templates: literal pieces with fields between them, which is the shape
    of every f-string the installer scripts are rendered from, together with a
    reader that takes a rendered text apart again. The reader is what the
    rendering lemmas use to show that a script holds exactly the entries it was
    rendered from, in order. */
module Template {
  import opened Wrappers

  /** The indentation the triple-quoted templates carry. */
  function Spaces(n: nat): (r: string)
    ensures |r| == n && forall c :: c in r ==> c == ' '
  {
    seq(n, _ => ' ')
  }

  /** Concatenation regroups; stated once so that the loops building text with
      `+=` need not prove it by extensionality in a large context. */
  lemma AppendAssoc(a: string, b: string, c: string)
    ensures (a + b) + c == a + (b + c)
  {
  }

  predicate IsPrefix(p: string, s: string) {
    |p| <= |s| && s[..|p|] == p
  }

  /** Every literal piece is non-empty: the first so that reading always
      consumes text, the others so that each field has a terminating character. */
  predicate WellFormed(lits: seq<string>) {
    |lits| >= 1 && forall i :: 0 <= i < |lits| ==> |lits[i]| > 0
  }

  /** `fields` fills the holes of `lits`, and no field contains the character
      that ends it, the first character of the literal piece after it. */
  predicate Fits(lits: seq<string>, fields: seq<string>)
    requires WellFormed(lits)
  {
    |fields| == |lits| - 1 &&
    forall i :: 0 <= i < |fields| ==> lits[i + 1][0] !in fields[i]
  }

  /** Fields free of one character fit pieces that all start with it. */
  lemma FitsWhenFree(lits: seq<string>, fields: seq<string>, c: char)
    requires WellFormed(lits) && |fields| == |lits| - 1
    requires forall i :: 0 < i < |lits| ==> lits[i][0] == c
    requires forall i :: 0 <= i < |fields| ==> c !in fields[i]
    ensures Fits(lits, fields)
  {
    forall i | 0 <= i < |fields| ensures lits[i + 1][0] !in fields[i] {
      assert lits[i + 1][0] == c;
    }
  }

  /** lits[0] + fields[0] + lits[1] + ... + fields[k-1] + lits[k]. */
  function Fill(lits: seq<string>, fields: seq<string>): (s: string)
    requires |lits| >= 1 && |fields| == |lits| - 1
    ensures IsPrefix(lits[0], s)
    decreases |lits|
  {
    if |lits| == 1 then lits[0]
    else lits[0] + fields[0] + Fill(lits[1..], fields[1..])
  }

  /** One filled template per row, one after the other. */
  function FillAll(lits: seq<string>, rows: seq<seq<string>>): string
    requires |lits| >= 1
    requires forall i :: 0 <= i < |rows| ==> |rows[i]| == |lits| - 1
  {
    if rows == [] then "" else Fill(lits, rows[0]) + FillAll(lits, rows[1..])
  }

  /** The longest prefix of `s` that does not contain `c`. */
  function TakeUntil(s: string, c: char): (r: string)
    ensures IsPrefix(r, s) && c !in r
    ensures |r| < |s| ==> s[|r|] == c
  {
    if |s| == 0 || s[0] == c then "" else [s[0]] + TakeUntil(s[1..], c)
  }

  /** Reads one filled template at the start of `s`: the fields and what
      follows the last literal piece. */
  function Parse(lits: seq<string>, s: string): (r: Option<(seq<string>, string)>)
    requires WellFormed(lits)
    ensures r.Some? ==> |r.value.0| == |lits| - 1 && |r.value.1| < |s|
    decreases |lits|
  {
    if !IsPrefix(lits[0], s) then None
    else
      var after := s[|lits[0]|..];
      if |lits| == 1 then Some(([], after))
      else
        var field := TakeUntil(after, lits[1][0]);
        match Parse(lits[1..], after[|field|..])
        case None => None
        case Some((fields, rest)) => Some(([field] + fields, rest))
  }

  /** Reads filled templates from the start of `s` for as long as they are
      there: the rows read and the text after the last one. */
  function ParseMany(lits: seq<string>, s: string): (r: (seq<seq<string>>, string))
    requires WellFormed(lits)
    ensures forall i :: 0 <= i < |r.0| ==> |r.0[i]| == |lits| - 1
    ensures |r.1| <= |s|
    decreases |s|
  {
    match Parse(lits, s)
    case None => ([], s)
    case Some((row, rest)) =>
      var (rows, tail) := ParseMany(lits, rest);
      ([row] + rows, tail)
  }

  lemma TakeUntilField(a: string, b: string, c: char)
    requires c !in a && |b| > 0 && b[0] == c
    ensures TakeUntil(a + b, c) == a
  {
    var s := a + b;
    assert forall k :: 0 <= k < |a| ==> s[k] == a[k] != c;
    assert s[|a|] == c;
  }

  /** Reading a filled template gives back its fields, and leaves what
      followed it. */
  lemma {:induction false} ParseFill(lits: seq<string>, fields: seq<string>, rest: string)
    requires WellFormed(lits) && Fits(lits, fields)
    ensures Parse(lits, Fill(lits, fields) + rest) == Some((fields, rest))
    decreases |lits|
  {
    var s := Fill(lits, fields) + rest;
    if |lits| == 1 {
      assert s == lits[0] + rest;
    } else {
      var tailLits, tailFields := lits[1..], fields[1..];
      assert WellFormed(tailLits);
      assert Fits(tailLits, tailFields) by {
        forall i | 0 <= i < |tailFields|
          ensures tailLits[i + 1][0] !in tailFields[i]
        {
          assert tailLits[i + 1] == lits[i + 2] && tailFields[i] == fields[i + 1];
        }
      }
      var more := Fill(tailLits, tailFields) + rest;
      assert s == lits[0] + (fields[0] + more);
      var after := s[|lits[0]|..];
      assert after == fields[0] + more;
      assert IsPrefix(lits[1], more);
      TakeUntilField(fields[0], more, lits[1][0]);
      assert after[|fields[0]|..] == more;
      ParseFill(tailLits, tailFields, rest);
      assert [fields[0]] + tailFields == fields;
    }
  }

  /** Reading as many filled templates as there are gives back every row, in
      order, when the text that follows does not itself start one. */
  lemma {:induction false} ParseManyFillAll(lits: seq<string>, rows: seq<seq<string>>, rest: string)
    requires WellFormed(lits)
    requires forall i :: 0 <= i < |rows| ==> |rows[i]| == |lits| - 1 && Fits(lits, rows[i])
    requires !IsPrefix(lits[0], rest)
    ensures ParseMany(lits, FillAll(lits, rows) + rest) == (rows, rest)
    decreases |rows|
  {
    if rows == [] {
      assert FillAll(lits, rows) + rest == rest;
    } else {
      var tail := rows[1..];
      assert forall i :: 0 <= i < |tail| ==> |tail[i]| == |lits| - 1 && Fits(lits, tail[i]) by {
        forall i | 0 <= i < |tail| ensures |tail[i]| == |lits| - 1 && Fits(lits, tail[i]) {
          assert tail[i] == rows[i + 1];
        }
      }
      var more := FillAll(lits, tail) + rest;
      assert FillAll(lits, rows) + rest == Fill(lits, rows[0]) + more;
      ParseFill(lits, rows[0], more);
      ParseManyFillAll(lits, tail, rest);
      assert [rows[0]] + tail == rows;
    }
  }

  /** Appending one row appends its filled template: the shape of the loops
      that build a block with `+=`. */
  lemma {:induction false} FillAllSnoc(lits: seq<string>, rows: seq<seq<string>>, row: seq<string>)
    requires |lits| >= 1 && |row| == |lits| - 1
    requires forall i :: 0 <= i < |rows| ==> |rows[i]| == |lits| - 1
    ensures FillAll(lits, rows + [row]) == FillAll(lits, rows) + Fill(lits, row)
    decreases |rows|
  {
    if rows == [] {
      assert rows + [row] == [row];
      assert [row][1..] == [];
    } else {
      assert (rows + [row])[1..] == rows[1..] + [row];
      FillAllSnoc(lits, rows[1..], row);
    }
  }
}
