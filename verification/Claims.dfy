/** Finding a claim by a dotted path in nested token claims, where keys may contain dots. */
module Claims {
  import opened Tenancy

  /** Printed is a number or truth value with its printed form. */
  datatype Claim =
    | Null
    | Text(text: string)
    | Printed(form: string)
    | Array(items: seq<Claim>)
    | Object(fields: map<string, Claim>)

  type Fields = map<string, Claim>

  /** The claim at path and the keys that led to it: the whole path as one key first, then the
      longest first key whose value is an object in which the rest is found. */
  function Find(claims: Fields, path: string): Option<(Claim, seq<string>)>
    decreases |path|, |path|
  {
    if path == "" then None
    else if path in claims then Some((claims[path], [path]))
    else Walk(claims, path, |path| - 1)
  }

  /** First keys of at most i characters, longest first. */
  function Walk(claims: Fields, path: string, i: nat): Option<(Claim, seq<string>)>
    requires i < |path|
    decreases |path|, i
  {
    if i == 0 then None
    else if path[i] == '.' && path[..i] in claims && claims[path[..i]].Object? then
      match Find(claims[path[..i]].fields, path[i + 1..])
      case Some(hit) => Some((hit.0, [path[..i]] + hit.1))
      case None => Walk(claims, path, i - 1)
    else Walk(claims, path, i - 1)
  }

  function Value(found: Option<(Claim, seq<string>)>): Option<Claim> {
    match found case Some(hit) => Some(hit.0) case None => None
  }

  method LookupClaim(claims: Fields, path: string) returns (r: Option<Claim>)
    ensures r == Value(Find(claims, path))
    decreases |path|
  {
    if path == "" { return None; }
    if path in claims { return Some(claims[path]); }
    var i := |path| - 1;
    while i > 0
      invariant 0 <= i < |path|
      invariant Find(claims, path) == Walk(claims, path, i)
    {
      if path[i] == '.' && path[..i] in claims && claims[path[..i]].Object? {
        var v := LookupClaim(claims[path[..i]].fields, path[i + 1..]);
        if v.Some? { return v; }
      }
      i := i - 1;
    }
    return None;
  }

  // ---- What a path means ------------------------------------------------------------------------------

  function Join(keys: seq<string>): string
    requires keys != []
  {
    if |keys| == 1 then keys[0] else keys[0] + "." + Join(keys[1..])
  }

  /** A split of path at dots into non-empty keys. */
  predicate Splits(keys: seq<string>, path: string) {
    keys != [] && (forall k :: k in keys ==> k != "") && Join(keys) == path
  }

  /** Following the keys through nested objects. */
  function Follow(claims: Fields, keys: seq<string>): Option<Claim>
    requires keys != []
    decreases |keys|
  {
    if keys[0] !in claims then None
    else if |keys| == 1 then Some(claims[keys[0]])
    else if claims[keys[0]].Object? then Follow(claims[keys[0]].fields, keys[1..])
    else None
  }

  /** At the first key where they differ, a has the longer one. */
  predicate Prefers(a: seq<string>, b: seq<string>) {
    a != [] && b != [] && (|a[0]| > |b[0]| || (a[0] == b[0] && Prefers(a[1..], b[1..])))
  }

  lemma {:induction false} FindIsSound(claims: Fields, path: string)
    ensures var r := Find(claims, path); r.Some? ==>
            Splits(r.value.1, path) && Follow(claims, r.value.1) == Some(r.value.0)
    decreases |path|, |path|
  {
    if path != "" && path !in claims { WalkIsSound(claims, path, |path| - 1); }
  }

  lemma {:induction false} WalkIsSound(claims: Fields, path: string, i: nat)
    requires i < |path|
    ensures var r := Walk(claims, path, i); r.Some? ==>
            Splits(r.value.1, path) && Follow(claims, r.value.1) == Some(r.value.0)
    decreases |path|, i
  {
    if i == 0 {
    } else {
      WalkIsSound(claims, path, i - 1);
      if path[i] == '.' && path[..i] in claims && claims[path[..i]].Object? {
        FindIsSound(claims[path[..i]].fields, path[i + 1..]);
        var hit := Find(claims[path[..i]].fields, path[i + 1..]);
        if hit.Some? {
          var keys := [path[..i]] + hit.value.1;
          assert keys[1..] == hit.value.1;
          assert path == path[..i] + "." + path[i + 1..];
        }
      }
    }
  }

  /** Whatever split resolves, a claim is found, by that split or one preferred to it. */
  lemma {:induction false} FindIsBest(claims: Fields, path: string, keys: seq<string>)
    requires Splits(keys, path) && Follow(claims, keys).Some?
    ensures var r := Find(claims, path); r.Some? && (r.value.1 == keys || Prefers(r.value.1, keys))
    decreases |path|, |path|
  {
    assert keys[0] in keys;
    if path !in claims { WalkIsBest(claims, path, |path| - 1, keys); }
  }

  lemma {:induction false} WalkIsBest(claims: Fields, path: string, i: nat, keys: seq<string>)
    requires i < |path| && |keys| > 1 && |keys[0]| <= i
    requires Splits(keys, path) && Follow(claims, keys).Some?
    ensures var r := Walk(claims, path, i); r.Some? && (r.value.1 == keys || Prefers(r.value.1, keys))
    decreases |path|, i
  {
    var n, rest := |keys[0]|, keys[1..];
    assert keys[0] in keys && forall k :: k in rest ==> k in keys;
    assert path == keys[0] + "." + Join(rest);
    assert path[..n] == keys[0] && path[n] == '.' && path[n + 1..] == Join(rest);
    if i == n {
      FindIsBest(claims[keys[0]].fields, path[n + 1..], rest);
      var hit := Find(claims[keys[0]].fields, path[n + 1..]).value.1;
      assert ([keys[0]] + hit)[1..] == hit;
      if hit == rest { assert [keys[0]] + hit == keys; }
    } else {
      WalkIsBest(claims, path, i - 1, keys);
    }
  }

  /** A lookup succeeds exactly when some split of the path at dots into non-empty keys resolves. */
  lemma FoundIffSomeSplitResolves(claims: Fields, path: string)
    ensures Value(Find(claims, path)).Some? <==> exists keys :: Splits(keys, path) && Follow(claims, keys).Some?
  {
    FindIsSound(claims, path);
    if keys :| Splits(keys, path) && Follow(claims, keys).Some? { FindIsBest(claims, path, keys); }
  }

  /** The split found resolves to the answer and is preferred to every other one that resolves. */
  lemma LongestKeysWin(claims: Fields, path: string)
    requires Find(claims, path).Some?
    ensures var (answer, best) := Find(claims, path).value;
            Splits(best, path) && Follow(claims, best) == Some(answer) &&
            (forall keys :: Splits(keys, path) && Follow(claims, keys).Some? && keys != best ==>
               Prefers(best, keys) && !Prefers(keys, best))
  {
    FindIsSound(claims, path);
    var best := Find(claims, path).value.1;
    forall keys | Splits(keys, path) && Follow(claims, keys).Some? && keys != best
      ensures Prefers(best, keys) && !Prefers(keys, best)
    {
      FindIsBest(claims, path, keys);
      NotBoth(best, keys);
    }
  }

  lemma {:induction false} NotBoth(a: seq<string>, b: seq<string>)
    ensures !(Prefers(a, b) && Prefers(b, a))
  {
    if a != [] && b != [] { NotBoth(a[1..], b[1..]); }
  }

  // ---- Group claims ------------------------------------------------------------------------------------

  function ClaimScalar(c: Claim): string {
    match c
    case Text(text) => text
    case Printed(form) => form
    case _ => ""
  }

  /** The group values a claim carries, as they come. */
  function GroupValues(c: Claim): set<string> {
    match c
    case Text(text) => {text}
    case Array(items) => set i | 0 <= i < |items| :: ClaimScalar(items[i])
    case Object(fields) => fields.Keys
    case _ => {}
  }

  /** The groups: trimmed, empty ones dropped. */
  function Groups(values: set<string>): set<string> {
    set v | v in values && TrimSpace(v) != "" :: TrimSpace(v)
  }

  /** Where a group comes from: the text itself, the texts and printed values of a list, or the names
      of an object's fields; always trimmed, and never empty. */
  lemma GroupsComeFrom(c: Claim, g: string)
    ensures g in Groups(GroupValues(c)) <==>
            g != "" &&
            match c {
              case Text(text) => TrimSpace(text) == g
              case Array(items) =>
                (exists i :: 0 <= i < |items| && items[i].Text? && TrimSpace(items[i].text) == g) ||
                (exists i :: 0 <= i < |items| && items[i].Printed? && TrimSpace(items[i].form) == g)
              case Object(fields) => exists k :: k in fields && TrimSpace(k) == g
              case _ => false
            }
  {
    if c.Array? {
      forall i | 0 <= i < |c.items| ensures ClaimScalar(c.items[i]) in GroupValues(c) {}
    }
  }

  /** The byte order strings are sorted by. */
  predicate Less(a: string, b: string) {
    b != "" && (a == "" || a[0] < b[0] || (a[0] == b[0] && Less(a[1..], b[1..])))
  }

  lemma {:induction false} LessIsTotal(a: string, b: string)
    ensures a == b || Less(a, b) || Less(b, a)
    ensures !(Less(a, b) && Less(b, a)) && !Less(a, a)
  {
    if a != "" { LessIsTotal(a[1..], a[1..]); }
    if a != "" && b != "" {
      LessIsTotal(a[1..], b[1..]);
      assert a == [a[0]] + a[1..] && b == [b[0]] + b[1..];
    }
  }

  lemma {:induction false} LessIsTransitive(a: string, b: string, c: string)
    requires Less(a, b) && Less(b, c)
    ensures Less(a, c)
  {
    if a != "" && a[0] == b[0] == c[0] { LessIsTransitive(a[1..], b[1..], c[1..]); }
  }

  predicate Ascending(q: seq<string>) {
    q == [] || ((forall x :: x in q[1..] ==> Less(q[0], x)) && Ascending(q[1..]))
  }

  function Insert(q: seq<string>, x: string): (r: seq<string>)
    ensures forall y :: y in r <==> y == x || y in q
  {
    if q == [] then [x] else if Less(x, q[0]) then [x] + q else [q[0]] + Insert(q[1..], x)
  }

  lemma {:induction false} InsertAscends(q: seq<string>, x: string)
    requires Ascending(q) && x !in q
    ensures Ascending(Insert(q, x))
  {
    if q == [] {
    } else {
      LessIsTotal(x, q[0]);
      assert q[0] in q && forall y :: y in q[1..] ==> y in q;
      if Less(x, q[0]) {
        forall y | y in q ensures Less(x, y) {
          if y != q[0] { LessIsTransitive(x, q[0], y); }
        }
        assert ([x] + q)[1..] == q;
      } else {
        InsertAscends(q[1..], x);
        assert ([q[0]] + Insert(q[1..], x))[1..] == Insert(q[1..], x);
      }
    }
  }

  /** sort.Strings on the members of a set. */
  method SortStrings(seen: set<string>) returns (out: seq<string>)
    ensures Ascending(out) && forall g :: g in out <==> g in seen
  {
    out := [];
    var left := seen;
    while left != {}
      invariant Ascending(out) && left <= seen
      invariant forall g :: g in out <==> g in seen && g !in left
      decreases |left|
    {
      var g :| g in left;
      InsertAscends(out, g);
      out := Insert(out, g);
      left := left - {g};
    }
  }

  method ClaimGroups(claims: Fields, path: string) returns (out: seq<string>)
    ensures Ascending(out)
    ensures var v := Value(Find(claims, path));
            forall g :: g in out <==> v.Some? && g in Groups(GroupValues(v.value))
  {
    var v := LookupClaim(claims, path);
    if v.None? { return []; }
    var seen: set<string> := {};
    match v.value {
      case Text(text) =>
        seen := Added(seen, text);
      case Array(items) =>
        for i := 0 to |items|
          invariant seen == Groups(set k | 0 <= k < i :: ClaimScalar(items[k]))
        {
          assert (set k | 0 <= k < i + 1 :: ClaimScalar(items[k])) == (set k | 0 <= k < i :: ClaimScalar(items[k])) +
            {ClaimScalar(items[i])};
          seen := Added(seen, ClaimScalar(items[i]));
        }
      case Object(fields) =>
        var keys := fields.Keys;
        while keys != {}
          invariant keys <= fields.Keys && seen == Groups(fields.Keys - keys)
          decreases |keys|
        {
          var k :| k in keys;
          assert fields.Keys - (keys - {k}) == (fields.Keys - keys) + {k};
          keys := keys - {k};
          seen := Added(seen, k);
        }
      case _ =>
    }
    out := SortStrings(seen);
  }

  /** Trim a value and record it unless nothing is left. */
  function Added(seen: set<string>, value: string): (r: set<string>)
    ensures forall values :: seen == Groups(values) ==> r == Groups(values + {value})
  {
    var g := TrimSpace(value);
    if g != "" then seen + {g} else seen
  }

  /** The group list is determined by the claim alone: no other ascending list has these elements, so
      neither the order of the claim nor of the map it passes through shows. */
  lemma {:induction false} AscendingIsUnique(a: seq<string>, b: seq<string>)
    requires Ascending(a) && Ascending(b) && forall x :: x in a <==> x in b
    ensures a == b
  {
    assert (a == [] || a[0] in a) && (b == [] || b[0] in b);
    if a == [] {
    } else {
      SameHead(a, b);
      forall x ensures x in a[1..] <==> x in b[1..] {
        LessIsTotal(a[0], a[0]);
        assert (x in a <==> x == a[0] || x in a[1..]) && (x in b <==> x == b[0] || x in b[1..]);
      }
      AscendingIsUnique(a[1..], b[1..]);
      assert a == [a[0]] + a[1..] && b == [b[0]] + b[1..];
    }
  }

  lemma SameHead(a: seq<string>, b: seq<string>)
    requires Ascending(a) && Ascending(b) && a != [] && b != [] && a[0] in b && b[0] in a
    ensures a[0] == b[0]
  {
    LessIsTotal(a[0], b[0]);
  }
}
