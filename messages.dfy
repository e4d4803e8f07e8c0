// How `Log` turns its variadic string arguments into the text of one record.

module Messages {
  import opened Text

  /** The string Log accumulates: start from "" and append a space and the next part, in order. */
  function Spaced(parts: seq<string>): string {
    if parts == [] then "" else Spaced(parts[..|parts| - 1]) + " " + parts[|parts| - 1]
  }

  /** The record text for the given parts: the accumulated string with white space trimmed. */
  function Message(parts: seq<string>): string {
    TrimSpace(Spaced(parts))
  }

  /** Reference definition: the parts separated by single spaces. */
  function Join(parts: seq<string>): string {
    if parts == [] then ""
    else if |parts| == 1 then parts[0]
    else parts[0] + " " + Join(parts[1..])
  }

  /** A part that is non-empty and neither starts nor ends with white space. */
  predicate Clean(t: string) {
    t != [] && !IsSpace(t[0]) && !IsSpace(t[|t| - 1])
  }

  /** The message building of Log: fold `s = s + " " + t` over the parts, then trim. */
  method Compose(e: seq<string>) returns (msg: string)
    ensures msg == Message(e)
  {
    var s := "";
    for i := 0 to |e|
      invariant s == Spaced(e[..i])
    {
      assert e[..i + 1][..i] == e[..i];
      s := s + " " + e[i];
    }
    assert e[..|e|] == e;
    msg := TrimSpace(s);
  }

  /** The message never begins or ends with white space, and is empty exactly when every part is blank. */
  lemma {:induction false} MessageShape(parts: seq<string>)
    ensures var m := Message(parts);
      m != [] ==> !IsSpace(m[0]) && !IsSpace(m[|m| - 1])
    ensures Message(parts) == [] <==> forall k :: 0 <= k < |parts| ==> Blank(parts[k])
  {
    SpacedBlank(parts);
  }

  lemma {:induction false} SpacedBlank(parts: seq<string>)
    ensures Blank(Spaced(parts)) <==> forall k :: 0 <= k < |parts| ==> Blank(parts[k])
    decreases |parts|
  {
    if parts != [] {
      var init := parts[..|parts| - 1];
      var last := parts[|parts| - 1];
      SpacedBlank(init);
      BlankConcat(Spaced(init) + " ", last);
      BlankConcat(Spaced(init), " ");
      assert IsSpace(' ');
      if forall k :: 0 <= k < |parts| ==> Blank(parts[k]) {
        assert forall k :: 0 <= k < |init| ==> Blank(init[k]) by {
          forall k | 0 <= k < |init| ensures Blank(init[k]) {
            assert init[k] == parts[k];
          }
        }
      }
    }
  }

  /** Appending one part to the reference join adds a single space before it. */
  lemma {:induction false} JoinSnoc(parts: seq<string>, t: string)
    requires parts != []
    ensures Join(parts + [t]) == Join(parts) + " " + t
    decreases |parts|
  {
    if |parts| > 1 {
      assert (parts + [t])[1..] == parts[1..] + [t];
      JoinSnoc(parts[1..], t);
    } else {
      assert (parts + [t])[1..] == [t];
    }
  }

  /** The accumulated string is one leading space followed by the reference join. */
  lemma {:induction false} SpacedIsJoin(parts: seq<string>)
    requires parts != []
    ensures Spaced(parts) == " " + Join(parts)
    decreases |parts|
  {
    var init := parts[..|parts| - 1];
    var last := parts[|parts| - 1];
    if init != [] {
      SpacedIsJoin(init);
      JoinSnoc(init, last);
      assert init + [last] == parts;
    } else {
      assert parts == [last];
    }
  }

  /** A clean, non-empty list of parts joins to a clean string. */
  lemma {:induction false} JoinClean(parts: seq<string>)
    requires parts != []
    requires forall k :: 0 <= k < |parts| ==> Clean(parts[k])
    ensures Clean(Join(parts))
    ensures Join(parts)[0] == parts[0][0]
    decreases |parts|
  {
    if |parts| > 1 {
      JoinClean(parts[1..]);
      var j := Join(parts[1..]);
      assert Join(parts) == parts[0] + " " + j;
      assert Join(parts)[|Join(parts)| - 1] == j[|j| - 1];
    }
  }

  /** With clean parts, the record text is exactly the parts joined by single spaces. */
  lemma {:induction false} MessageOfCleanParts(parts: seq<string>)
    requires forall k :: 0 <= k < |parts| ==> Clean(parts[k])
    ensures Message(parts) == Join(parts)
  {
    if parts != [] {
      SpacedIsJoin(parts);
      JoinClean(parts);
      assert IsSpace(' ');
      assert Spaced(parts) == " " + Join(parts) + "";
      TrimSpaceOfPadded(" ", Join(parts), "");
    }
  }
}
