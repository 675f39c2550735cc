/** Listing prefixes with their sources in the order of the printed prefixes. */
module TextOrder {
  import opened Edges
  import opened Rib

  // Lexicographic order of texts.
  predicate Below(a: string, b: string) {
    a == "" || (b != "" && (a[0] < b[0] || (a[0] == b[0] && Below(a[1..], b[1..]))))
  }

  // At k the texts differ for the first time, and a has the smaller character.
  predicate SmallerAt(a: string, b: string, k: nat) {
    k < |a| && k < |b| && a[..k] == b[..k] && a[k] < b[k]
  }

  /** One text is not after another if it begins the other, or has the smaller character where they first
      differ. */
  lemma {:induction false} BelowMeans(a: string, b: string)
    ensures Below(a, b) <==> a <= b || exists k: nat :: SmallerAt(a, b, k)
    decreases |a|
  {
    if a != "" && b != "" {
      BelowMeans(a[1..], b[1..]);
      assert a == [a[0]] + a[1..] && b == [b[0]] + b[1..];
      if a[0] < b[0] {
        assert SmallerAt(a, b, 0);
      }
      forall k: nat | a[0] == b[0]
        ensures SmallerAt(a[1..], b[1..], k) <==> SmallerAt(a, b, k + 1)
      {
        if k < |a| - 1 && k < |b| - 1 {
          assert a[..k + 1] == [a[0]] + a[1..][..k] && b[..k + 1] == [b[0]] + b[1..][..k];
          assert a[..k + 1][1..] == a[1..][..k] && b[..k + 1][1..] == b[1..][..k];
        }
      }
      if k: nat :| SmallerAt(a, b, k) {
        if k > 0 {
          assert a[..k][0] == b[..k][0];
          assert a[0] == b[0] && SmallerAt(a[1..], b[1..], k - 1);
        }
      }
      if k: nat :| SmallerAt(a[1..], b[1..], k) {
        assert a[0] == b[0] ==> SmallerAt(a, b, k + 1);
      }
    }
  }

  lemma {:induction false} BelowTotal(a: string, b: string)
    ensures Below(a, b) || Below(b, a)
  {
    if a != "" && b != "" && a[0] == b[0] {
      BelowTotal(a[1..], b[1..]);
    }
  }

  lemma {:induction false} BelowTransitive(a: string, b: string, c: string)
    requires Below(a, b) && Below(b, c)
    ensures Below(a, c)
  {
    if a != "" && a[0] == b[0] == c[0] {
      BelowTransitive(a[1..], b[1..], c[1..]);
    }
  }

  type Listing = seq<(Prefix, seq<EdgeId>)>

  // No prefix is listed twice.
  ghost predicate Apart(out: Listing) {
    forall i, j :: 0 <= i < j < |out| ==> out[i].0 != out[j].0
  }

  ghost predicate InTextOrder(out: Listing, printed: Prefix -> string) {
    forall i, j :: 0 <= i < j < |out| ==> Below(printed(out[i].0), printed(out[j].0))
  }

  function InsertByText(out: Listing, c: (Prefix, seq<EdgeId>), printed: Prefix -> string): Listing {
    if out == [] || Below(printed(out[|out| - 1].0), printed(c.0)) then out + [c]
    else InsertByText(out[..|out| - 1], c, printed) + [out[|out| - 1]]
  }

  function SortedByText(out: Listing, printed: Prefix -> string): Listing {
    if out == [] then []
    else InsertByText(SortedByText(out[..|out| - 1], printed), out[|out| - 1], printed)
  }

  lemma {:induction false} InsertedMembers(out: Listing, c: (Prefix, seq<EdgeId>), printed: Prefix -> string)
    ensures forall x :: x in InsertByText(out, c, printed) <==> x in out || x == c
    decreases |out|
  {
    if out != [] && !Below(printed(out[|out| - 1].0), printed(c.0)) {
      assert out == out[..|out| - 1] + [out[|out| - 1]];
      InsertedMembers(out[..|out| - 1], c, printed);
    }
  }

  // Everything listed is not after the last entry, so what is after the last is after all.
  lemma AfterLast(out: Listing, c: (Prefix, seq<EdgeId>), printed: Prefix -> string)
    requires out != [] && InTextOrder(out, printed) && Below(printed(out[|out| - 1].0), printed(c.0))
    ensures forall i :: 0 <= i < |out| ==> Below(printed(out[i].0), printed(c.0))
  {
    forall i | 0 <= i < |out|
      ensures Below(printed(out[i].0), printed(c.0))
    {
      if i < |out| - 1 {
        BelowTransitive(printed(out[i].0), printed(out[|out| - 1].0), printed(c.0));
      }
    }
  }

  lemma OneLast(front: Listing, last: (Prefix, seq<EdgeId>), printed: Prefix -> string)
    requires Apart(front) && InTextOrder(front, printed)
    requires forall x <- front :: x.0 != last.0 && Below(printed(x.0), printed(last.0))
    ensures Apart(front + [last]) && InTextOrder(front + [last], printed)
  {
    forall i | 0 <= i < |front|
      ensures front[i].0 != last.0 && Below(printed(front[i].0), printed(last.0))
    {
      assert front[i] in front;
    }
  }

  lemma FrontIsBefore(out: Listing, printed: Prefix -> string)
    requires out != [] && Apart(out) && InTextOrder(out, printed)
    ensures var front, last := out[..|out| - 1], out[|out| - 1];
            && Apart(front) && InTextOrder(front, printed)
            && forall x <- front :: x.0 != last.0 && Below(printed(x.0), printed(last.0))
  {
  }

  lemma {:induction false} InsertedByText(out: Listing, c: (Prefix, seq<EdgeId>), printed: Prefix -> string)
    requires Apart(out) && InTextOrder(out, printed) && forall x <- out :: x.0 != c.0
    ensures Apart(InsertByText(out, c, printed)) && InTextOrder(InsertByText(out, c, printed), printed)
    decreases |out|
  {
    if out == [] {
    } else if Below(printed(out[|out| - 1].0), printed(c.0)) {
      AfterLast(out, c, printed);
      OneLast(out, c, printed);
    } else {
      var front, last := out[..|out| - 1], out[|out| - 1];
      assert last in out && forall x <- front :: x in out;
      FrontIsBefore(out, printed);
      InsertedByText(front, c, printed);
      InsertedMembers(front, c, printed);
      BelowTotal(printed(last.0), printed(c.0));
      OneLast(InsertByText(front, c, printed), last, printed);
    }
  }

  // Sorting keeps the entries, and no prefix is listed twice after it if none was before.
  lemma {:induction false} SortedMeans(out: Listing, printed: Prefix -> string)
    requires Apart(out)
    ensures Apart(SortedByText(out, printed)) && InTextOrder(SortedByText(out, printed), printed)
    ensures forall x :: x in SortedByText(out, printed) <==> x in out
    decreases |out|
  {
    if out != [] {
      var n := |out| - 1;
      assert out == out[..n] + [out[n]];
      SortedMeans(out[..n], printed);
      InsertedMembers(SortedByText(out[..n], printed), out[n], printed);
      InsertedByText(SortedByText(out[..n], printed), out[n], printed);
    }
  }
}
