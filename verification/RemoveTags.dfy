/** Removing elements from SVG uploads by scanning for their tags. A byte is a char here: the code
    only compares bytes with ASCII text. */
module RemoveTags {

  type Bytes = seq<char>

  function Spaced(tag: string): string { "<" + tag + " " }

  function Bare(tag: string): string { "<" + tag + ">" }

  function Closing(tag: string): string { "</" + tag + ">" }

  /** Does an opening tag start here? */
  predicate Opens(s: Bytes, tag: string): (yes: bool)
    ensures yes ==> s != [] && s[0] == '<'
  {
    Spaced(tag) <= s || Bare(tag) <= s
  }

  predicate Closes(s: Bytes, tag: string): (yes: bool)
    ensures yes ==> |s| > 1 && s[0] == '<' && s[1] == '/'
  {
    Closing(tag) <= s
  }

  /** What one position adds to the nesting depth. */
  function Delta(s: Bytes, tag: string): int { if Opens(s, tag) then 1 else if Closes(s, tag) then -1 else 0 }

  /** What is left of s once the depth has come back to 0: the scan moves one byte at a time, so
      it stops just after the '<' of the closing tag. */
  function Skip(s: Bytes, tag: string, depth: int): (rest: Bytes)
    ensures |rest| <= |s|
  {
    if s == [] || depth <= 0 then s else Skip(s[1..], tag, depth + Delta(s, tag))
  }

  lemma {:induction false} SkipIsSuffix(s: Bytes, tag: string, depth: int)
    ensures var rest := Skip(s, tag, depth); rest == s[|s| - |rest|..]
  {
    if s != [] && depth > 0 { SkipIsSuffix(s[1..], tag, depth + Delta(s, tag)); }
  }

  lemma SkipStep(data: Bytes, tag: string, j: nat, depth: int)
    requires j <= |data|
    ensures j < |data| && depth > 0 ==>
            Skip(data[j..], tag, depth) == Skip(data[j + 1..], tag, depth + Delta(data[j..], tag))
    ensures j == |data| || depth <= 0 ==> Skip(data[j..], tag, depth) == data[j..]
  {
    if j < |data| { assert data[j..][1..] == data[j + 1..]; }
  }

  lemma RemovedStep(data: Bytes, tag: string, i: nat)
    requires i <= |data|
    ensures i < |data| ==>
      Removed(data[i..], tag) ==
        if Opens(data[i..], tag) then Removed(Skip(data[i + 1..], tag, 1), tag)
          else [data[i]] + Removed(data[i + 1..], tag)
    ensures i == |data| ==> Removed(data[i..], tag) == []
  {
    if i < |data| { assert data[i..][1..] == data[i + 1..]; }
  }

  function Removed(s: Bytes, tag: string): Bytes
    decreases |s|
  {
    if s == [] then []
    else if Opens(s, tag) then Removed(Skip(s[1..], tag, 1), tag)
    else [s[0]] + Removed(s[1..], tag)
  }

  /** The scan as the source writes it. Its branch for self-closing tags is never reached: the
      opening test already covers it. */
  method RemoveTag(data: Bytes, tag: string) returns (out: Bytes)
    ensures out == Removed(data, tag)
  {
    hide Spaced, Bare, Closing, Skip, Removed;
    var open, close := Spaced(tag), Closing(tag);
    out := [];
    var i := 0;
    assert data[0..] == data;
    while i < |data|
      invariant 0 <= i <= |data|
      invariant out + Removed(data[i..], tag) == Removed(data, tag)
      decreases |data| - i
    {
      RemovedStep(data, tag, i);
      if open <= data[i..] || Bare(tag) <= data[i..] {
        var j, depth := i + 1, 1;
        while j < |data| && depth > 0
          invariant i < j <= |data| && depth >= 0
          invariant Skip(data[j..], tag, depth) == Skip(data[i + 1..], tag, 1)
        {
          SkipStep(data, tag, j, depth);
          if open <= data[j..] || Bare(tag) <= data[j..] {
            depth := depth + 1;
          } else if close <= data[j..] || Closing(tag) <= data[j..] {
            depth := depth - 1;
          }
          j := j + 1;
        }
        SkipStep(data, tag, j, depth);
        i := j;
        continue;
      }
      if Spaced(tag) <= data[i..] {
        assert false;
      }
      assert out + ([data[i]] + Removed(data[i + 1..], tag)) == (out + [data[i]]) + Removed(data[i + 1..], tag);
      out := out + [data[i]];
      i := i + 1;
    }
    RemovedStep(data, tag, i);
  }

  // ---- Nothing new appears --------------------------------------------------------------------------

  predicate Subsequence(a: Bytes, b: Bytes) {
    a == [] || (b != [] && ((a[0] == b[0] && Subsequence(a[1..], b[1..])) || Subsequence(a, b[1..])))
  }

  lemma {:induction false} SuffixSubsequence(a: Bytes, b: Bytes, k: nat)
    requires k <= |b| && Subsequence(a, b[k..])
    ensures Subsequence(a, b)
  {
    if k == 0 {
    } else {
      assert b[1..][k - 1..] == b[k..];
      SuffixSubsequence(a, b[1..], k - 1);
    }
  }

  /** The result keeps some of the input bytes, in order, and adds none. */
  lemma {:induction false} RemovedIsSubsequence(s: Bytes, tag: string)
    ensures Subsequence(Removed(s, tag), s)
    decreases |s|
  {
    if s == [] {
    } else {
      if Opens(s, tag) {
        var rest := Skip(s[1..], tag, 1);
        RemovedIsSubsequence(rest, tag);
        SkipIsSuffix(s[1..], tag, 1);
        assert rest == s[|s| - |rest|..];
        SuffixSubsequence(Removed(rest, tag), s, |s| - |rest|);
      } else {
        RemovedIsSubsequence(s[1..], tag);
      }
    }
  }

  /** After a removed stretch the input goes on with a slash, or is at its end. */
  lemma {:induction false} SkipStopsAtSlash(s: Bytes, tag: string, depth: int)
    requires depth > 0
    ensures var rest := Skip(s, tag, depth); rest != [] ==> rest[0] == '/'
  {
    if s == [] {
    } else {
      if depth + Delta(s, tag) > 0 {
        SkipStopsAtSlash(s[1..], tag, depth + Delta(s, tag));
      } else {
        assert Closes(s, tag);
      }
    }
  }

  predicate NoSlash(w: string) { forall k :: 0 <= k < |w| ==> w[k] != '/' }

  lemma ElementBecomesSlash(s: Bytes, tag: string)
    requires Opens(s, tag)
    ensures Removed(s, tag) != [] ==> Removed(s, tag)[0] == '/'
  {
    SkipStopsAtSlash(s[1..], tag, 1);
  }

  /** Text without a slash at the front of the result was at the front of the input. */
  lemma {:induction false} PrefixComesFromInput(s: Bytes, tag: string, w: string)
    requires w <= Removed(s, tag) && NoSlash(w)
    ensures w <= s
    decreases |s|
  {
    if w == [] {
    } else {
      if Opens(s, tag) { ElementBecomesSlash(s, tag); }
      if !Opens(s, tag) {
        PrefixComesFromInput(s[1..], tag, w[1..]);
        assert s == [s[0]] + s[1..] && w == [w[0]] + w[1..];
      }
    }
  }

  ghost predicate Occurs(w: string, s: Bytes, p: nat) { p <= |s| && w <= s[p..] }

  /** Any text whose only slash, if any, comes first, and which occurs in the result, occurs as one
      piece in the input, at a place where no opening tag starts. */
  lemma {:induction false} TextComesFromInput(s: Bytes, tag: string, w: string, p: nat) returns (at: nat)
    requires w != [] && NoSlash(w[1..]) && Occurs(w, Removed(s, tag), p)
    ensures Occurs(w, s, at) && !Opens(s[at..], tag)
    decreases |s|
  {
    if Opens(s, tag) {
      var rest := Skip(s[1..], tag, 1);
      var k := TextComesFromInput(rest, tag, w, p);
      at := |s| - |rest| + k;
      SkipIsSuffix(s[1..], tag, 1);
      assert s[at..] == rest[k..];
    } else if p == 0 {
      assert w[1..] <= Removed(s[1..], tag);
      PrefixComesFromInput(s[1..], tag, w[1..]);
      at := 0;
      assert s[0..] == s == [s[0]] + s[1..] && w == [w[0]] + w[1..];
    } else {
      assert Removed(s, tag)[p..] == Removed(s[1..], tag)[p - 1..];
      var k := TextComesFromInput(s[1..], tag, w, p - 1);
      at := k + 1;
      assert s[at..] == s[1..][k..];
    }
  }

  /** "<tag " or "<tag>" occurs in s. */
  ghost predicate HasOpening(s: Bytes, tag: string) {
    exists p :: 0 <= p <= |s| && ("<" + tag + " " <= s[p..] || "<" + tag + ">" <= s[p..])
  }

  lemma OpeningHasNoSlash(tag: string)
    requires NoSlash(tag)
    ensures NoSlash(Spaced(tag)[1..]) && NoSlash(Bare(tag)[1..])
  {
    assert Spaced(tag)[1..] == tag + " " && Bare(tag)[1..] == tag + ">";
  }

  /** No opening tag is left. */
  lemma NoOpeningLeft(s: Bytes, tag: string)
    requires NoSlash(tag)
    ensures !HasOpening(Removed(s, tag), tag)
  {
    var r := Removed(s, tag);
    OpeningHasNoSlash(tag);
    if HasOpening(r, tag) {
      var p: nat :| p <= |r| && (Spaced(tag) <= r[p..] || Bare(tag) <= r[p..]);
      var w := if Spaced(tag) <= r[p..] then Spaced(tag) else Bare(tag);
      assert w <= r[p..];
      var at := TextComesFromInput(s, tag, w, p);
    }
  }

  /** Removing another tag brings no opening tag back. */
  lemma OtherPassAddsNoOpening(s: Bytes, tag: string, other: string)
    requires NoSlash(tag) && !HasOpening(s, tag)
    ensures !HasOpening(Removed(s, other), tag)
  {
    var r := Removed(s, other);
    OpeningHasNoSlash(tag);
    if HasOpening(r, tag) {
      var p: nat :| p <= |r| && (Spaced(tag) <= r[p..] || Bare(tag) <= r[p..]);
      var w := if Spaced(tag) <= r[p..] then Spaced(tag) else Bare(tag);
      assert w <= r[p..];
      var at := TextComesFromInput(s, other, w, p);
    }
  }

  /** The two passes over an upload leave neither element's opening tag, whatever the input. */
  lemma BothPassesLeaveNeitherTag(data: Bytes)
    ensures var out := Removed(Removed(data, "script"), "foreignObject");
            !HasOpening(out, "script") && !HasOpening(out, "foreignObject") && Subsequence(out, Removed(data, "script"))
  {
    hide Removed, HasOpening, Subsequence;
    NoOpeningLeft(data, "script");
    OtherPassAddsNoOpening(Removed(data, "script"), "script", "foreignObject");
    NoOpeningLeft(Removed(data, "script"), "foreignObject");
    RemovedIsSubsequence(Removed(data, "script"), "foreignObject");
  }

  lemma {:induction false} NeverLonger(s: Bytes, tag: string)
    ensures |Removed(s, tag)| <= |s|
    decreases |s|
  {
    if s != [] { NeverLonger(if Opens(s, tag) then Skip(s[1..], tag, 1) else s[1..], tag); }
  }

  /** The input comes back unchanged exactly when no opening tag occurs in it. */
  lemma {:induction false} UnchangedIff(s: Bytes, tag: string)
    ensures Removed(s, tag) == s <==> !HasOpening(s, tag)
    decreases |s|
  {
    if s == [] {
      assert !Opens(s[0..], tag);
    } else if Opens(s, tag) {
      NeverLonger(Skip(s[1..], tag, 1), tag);
      assert s[0..] == s;
    } else {
      UnchangedIff(s[1..], tag);
      assert s == [s[0]] + s[1..];
      assert forall p :: 0 <= p <= |s[1..]| ==> s[1..][p..] == s[p + 1..];
      if HasOpening(s, tag) {
        var p :| 0 <= p <= |s| && Opens(s[p..], tag);
        assert p > 0 && Opens(s[1..][p - 1..], tag);
      }
      if HasOpening(s[1..], tag) {
        var p :| 0 <= p <= |s[1..]| && Opens(s[1..][p..], tag);
        assert Opens(s[p + 1..], tag);
      }
    }
  }

  // ---- How much goes ---------------------------------------------------------------------------------

  /** Opening minus closing tags among the first n positions. */
  function Net(s: Bytes, tag: string, n: nat): int
    requires n <= |s|
  {
    if n == 0 then 0 else Delta(s, tag) + Net(s[1..], tag, n - 1)
  }

  /** The stretch removed ends at the first position where the tags balance, or at the end of the
      input when they never do. */
  lemma {:induction false} SkipEndsAtBalance(s: Bytes, tag: string, depth: int)
    requires depth > 0
    ensures var n := |s| - |Skip(s, tag, depth)|;
            (forall m :: 0 <= m < n ==> depth + Net(s, tag, m) > 0) && (n < |s| ==> depth + Net(s, tag, n) == 0)
  {
    if s == [] {
    } else {
      var d, n := depth + Delta(s, tag), |s| - |Skip(s, tag, depth)|;
      if d > 0 {
        SkipEndsAtBalance(s[1..], tag, d);
        forall m | 0 < m < n ensures depth + Net(s, tag, m) > 0 {
          assert d + Net(s[1..], tag, m - 1) > 0;
        }
      }
    }
  }

  lemma {:induction false} SkipText(body: string, rest: Bytes, tag: string, depth: int)
    requires depth > 0 && '<' !in body
    ensures Skip(body + rest, tag, depth) == Skip(rest, tag, depth)
  {
    if body == [] {
      assert body + rest == rest;
    } else {
      assert body[0] in body && (body + rest)[1..] == body[1..] + rest;
      SkipText(body[1..], rest, tag, depth);
    }
  }

  lemma {:induction false} KeepText(body: string, rest: Bytes, tag: string)
    requires '<' !in body
    ensures Removed(body + rest, tag) == body + Removed(rest, tag)
  {
    if body == [] {
      assert body + rest == rest;
    } else {
      assert body[0] in body && (body + rest)[1..] == body[1..] + rest;
      KeepText(body[1..], rest, tag);
    }
  }

  /** Where a removed stretch ends before the input does, it ends just inside a closing tag. */
  lemma {:induction false} SkipStopsInClosing(s: Bytes, tag: string, depth: int)
    requires depth > 0 && Skip(s, tag, depth) != []
    ensures "/" + tag + ">" <= Skip(s, tag, depth)
  {
    hide Opens;
    if s == [] {
    } else if depth + Delta(s, tag) > 0 {
      SkipStopsInClosing(s[1..], tag, depth + Delta(s, tag));
    } else {
      assert Closing(tag) <= s;
      assert Closing(tag)[1..] == "/" + tag + ">";
      assert s[..|Closing(tag)|] == Closing(tag);
      assert s[1..][..|tag| + 2] == Closing(tag)[1..];
    }
  }

  /** Do the tags of the element that opens s balance before s ends? */
  ghost predicate Balances(s: Bytes, tag: string)
    requires s != []
  {
    exists n :: 0 <= n < |s| - 1 && 1 + Net(s[1..], tag, n) == 0
  }

  lemma BalancesIff(s: Bytes, tag: string)
    requires s != []
    ensures Balances(s, tag) <==> Skip(s[1..], tag, 1) != []
  {
    SkipEndsAtBalance(s[1..], tag, 1);
    var n := |s[1..]| - |Skip(s[1..], tag, 1)|;
    if n < |s[1..]| { assert 1 + Net(s[1..], tag, n) == 0; }
  }

  /** An element is removed without a trace, and everything after it, exactly when its tags do not
      balance. When they do, whatever is nested in it, the tail of its closing tag is what the output
      goes on with, followed by the rest of the input. */
  lemma TailStaysIff(s: Bytes, tag: string)
    requires Opens(s, tag) && NoSlash(tag) && '<' !in tag
    ensures Balances(s, tag) <==> "/" + tag + ">" <= Removed(s, tag)
    ensures !Balances(s, tag) <==> Removed(s, tag) == []
    ensures var rest := Skip(s[1..], tag, 1);
            Balances(s, tag) ==>
              "/" + tag + ">" <= rest && Removed(s, tag) == "/" + tag + ">" + Removed(rest[|tag| + 2..], tag)
  {
    hide Skip, Balances;
    var rest, tail := Skip(s[1..], tag, 1), "/" + tag + ">";
    BalancesIff(s, tag);
    if rest != [] {
      SkipStopsInClosing(s[1..], tag, 1);
      assert rest == tail + rest[|tail|..];
      KeepText(tail, rest[|tail|..], tag);
    }
  }

  /** Up to the first opening tag the input is kept as it is, so the same holds of an element
      anywhere. */
  lemma {:induction false} KeptUpToFirst(s: Bytes, tag: string, p: nat)
    requires p <= |s| && forall k :: 0 <= k < p ==> !Opens(s[k..], tag)
    ensures Removed(s, tag) == s[..p] + Removed(s[p..], tag)
    decreases p
  {
    if p == 0 {
      assert s[0..] == s && s[..0] == [];
    } else {
      assert s[0..] == s && forall k :: 0 <= k < p - 1 ==> s[1..][k..] == s[k + 1..];
      KeptUpToFirst(s[1..], tag, p - 1);
      assert s[..p] == [s[0]] + s[1..][..p - 1] && s[1..][p - 1..] == s[p..];
    }
  }

  /** What an element may hold: text, and elements of its own name, nested in any way. */
  datatype Markup = Nothing | Then(text: string, attributes: string, inside: Markup, after: Markup)

  function OpeningTag(tag: string, attributes: string): string {
    if attributes == "" then "<" + tag + ">" else "<" + tag + " " + attributes + ">"
  }

  function ClosingTag(tag: string): string { "</" + tag + ">" }

  /** Text, an element, and what comes after it. */
  function Rendered(m: Markup, tag: string): string {
    if m.Nothing? then ""
    else
      m.text + OpeningTag(tag, m.attributes) + Rendered(m.inside, tag) + ClosingTag(tag) + Rendered(m.after, tag)
  }

  predicate NoTags(m: Markup) {
    m.Then? ==> '<' !in m.text && '<' !in m.attributes && NoTags(m.inside) && NoTags(m.after)
  }

  lemma SkipOpening(tag: string, attributes: string, rest: Bytes, depth: int)
    requires depth > 0 && '<' !in tag && '<' !in attributes
    ensures Skip(OpeningTag(tag, attributes) + rest, tag, depth) == Skip(rest, tag, depth + 1)
  {
    var open := OpeningTag(tag, attributes);
    var s := open + rest;
    assert Spaced(tag) <= open || Bare(tag) <= open;
    assert Opens(s, tag);
    assert s[1..] == open[1..] + rest && '<' !in open[1..];
    SkipText(open[1..], rest, tag, depth + 1);
  }

  lemma SkipInnerClosing(tag: string, rest: Bytes, depth: int)
    requires depth > 1 && NoSlash(tag) && '<' !in tag
    ensures Skip(ClosingTag(tag) + rest, tag, depth) == Skip(rest, tag, depth - 1)
  {
    var s := ClosingTag(tag) + rest;
    assert s[1] == '/' && Spaced(tag)[1] != '/' && Bare(tag)[1] != '/';
    assert Closes(s, tag) && !Opens(s, tag);
    assert s[1..] == ("/" + tag + ">") + rest;
    SkipText("/" + tag + ">", rest, tag, depth - 1);
  }

  /** Balanced markup leaves the depth as it is. */
  lemma {:induction false} SkipMarkup(m: Markup, tag: string, rest: Bytes, depth: int)
    requires depth > 0 && NoTags(m) && NoSlash(tag) && '<' !in tag
    ensures Skip(Rendered(m, tag) + rest, tag, depth) == Skip(rest, tag, depth)
    decreases m
  {
    hide Skip, NoSlash, OpeningTag, ClosingTag;
    if m.Nothing? {
      assert Rendered(m, tag) + rest == rest;
    } else {
      var tail := Rendered(m.after, tag) + rest;
      var last := ClosingTag(tag) + tail;
      var mid := Rendered(m.inside, tag) + last;
      var entered := OpeningTag(tag, m.attributes) + mid;
      assert Rendered(m, tag) + rest == m.text + entered;
      SkipText(m.text, entered, tag, depth);
      SkipOpening(tag, m.attributes, mid, depth);
      SkipMarkup(m.inside, tag, last, depth + 1);
      SkipInnerClosing(tag, tail, depth + 1);
      SkipMarkup(m.after, tag, rest, depth);
    }
  }

  /** An element goes with everything nested in it, but its closing tag does not go with it: what
      follows the '<' stays in the output. */
  lemma ElementLeavesItsTail(tag: string, attributes: string, m: Markup, body: string, after: Bytes)
    requires NoSlash(tag) && '<' !in tag && '<' !in attributes && '<' !in body && NoTags(m)
    ensures Removed(OpeningTag(tag, attributes) + Rendered(m, tag) + body + ClosingTag(tag) + after, tag) ==
            "/" + tag + ">" + Removed(after, tag)
  {
    hide Skip, NoSlash, Rendered, NoTags;
    var open, tail := OpeningTag(tag, attributes), "/" + tag + ">";
    var last := ClosingTag(tag) + after;
    var rest := Rendered(m, tag) + (body + last);
    var s := open + rest;
    assert open + Rendered(m, tag) + body + ClosingTag(tag) + after == s;
    assert Spaced(tag) <= open || Bare(tag) <= open;
    assert Opens(s, tag);
    assert s[1..] == open[1..] + rest && '<' !in open[1..];
    SkipText(open[1..], rest, tag, 1);
    SkipMarkup(m, tag, body + last, 1);
    SkipText(body, last, tag, 1);
    SkipClosing(tag, after);
    assert ClosingTag(tag) == Closing(tag);
    KeepText(tail, after, tag);
  }

  lemma SkipClosing(tag: string, after: Bytes)
    requires NoSlash(tag)
    ensures Skip(Closing(tag) + after, tag, 1) == "/" + tag + ">" + after
  {
    var s := Closing(tag) + after;
    assert s[1] == '/' && Spaced(tag)[1] != '/' && Bare(tag)[1] != '/';
    assert s[1..] == "/" + tag + ">" + after;
  }
}
