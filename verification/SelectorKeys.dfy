/** Label selectors printed as cache keys, and read back from them. */
module SelectorKeys {
  import opened Types
  import opened Sequences

  // ----- Printing -----

  function Format(pair: (string, string)): string {
    pair.0 + "=" + pair.1
  }

  function FormatAll(selector: Labels): seq<string> {
    if selector == [] then [] else FormatAll(selector[..|selector| - 1]) + [Format(selector[|selector| - 1])]
  }

  /** Lexicographic order on strings. */
  predicate StringLe(a: string, b: string) {
    if a == [] then true
    else if b == [] then false
    else if a[0] == b[0] then StringLe(a[1..], b[1..])
    else a[0] < b[0]
  }

  function Join(parts: seq<string>): string {
    if parts == [] then ""
    else if |parts| == 1 then parts[0]
    else parts[0] + "," + Join(parts[1..])
  }

  /** The pairs as "key=value", sorted and joined by commas. */
  function SelectorKey(selector: Labels): string {
    Join(StableSort(FormatAll(selector), StringLe))
  }

  // ----- Reading back -----

  function Split(s: string, separator: char): seq<string>
    decreases |s|
  {
    if separator !in s then [s]
    else var i := IndexOf(s, separator); [s[..i]] + Split(s[i + 1..], separator)
  }

  /** `splitn(2, '=')`: a part without '=' is dropped. */
  function ParsePair(part: string): Option<(string, string)> {
    if '=' !in part then None
    else var i := IndexOf(part, '='); Some((part[..i], part[i + 1..]))
  }

  function ParseParts(parts: seq<string>): Labels {
    if parts == [] then []
    else
      var last := parts[|parts| - 1];
      ParseParts(parts[..|parts| - 1]) +
      (if last == "" then [] else match ParsePair(last) case Some(pair) => [pair] case None => [])
  }

  /** The selector that the caches rebuild from a key. */
  function ParseKey(key: string): Labels {
    ParseParts(Split(key, ','))
  }

  // ----- The round trip -----

  /** Neither side of a pair contains a comma, and the key contains no '='. */
  predicate CleanPair(pair: (string, string)) {
    ',' !in pair.0 && ',' !in pair.1 && '=' !in pair.0
  }

  predicate Clean(selector: Labels) {
    forall pair | pair in selector :: CleanPair(pair)
  }

  lemma ParseFormat(pair: (string, string))
    requires CleanPair(pair)
    ensures ParsePair(Format(pair)) == Some(pair)
    ensures ',' !in Format(pair) && Format(pair) != ""
  {
    var s := Format(pair);
    assert s == pair.0 + ['='] + pair.1;
    IndexOfAfter(pair.0, '=', pair.1);
    assert s[..|pair.0|] == pair.0 && s[|pair.0| + 1..] == pair.1;
  }

  lemma {:induction false} ParseFormatAll(selector: Labels)
    requires Clean(selector)
    ensures ParseParts(FormatAll(selector)) == selector
    ensures forall part :: part in FormatAll(selector) ==> ',' !in part
  {
    if selector != [] {
      var front, last := selector[..|selector| - 1], selector[|selector| - 1];
      assert last in selector;
      ParseFormatAll(front);
      ParseFormat(last);
      ParsePartsAppend(FormatAll(front), Format(last));
      ParsePartsSingle(Format(last));
      assert selector == front + [last];
    }
  }

  lemma ParsePartsSingle(part: string)
    requires part != ""
    ensures ParseParts([part]) == match ParsePair(part) case Some(pair) => [pair] case None => []
  {
    assert ParseParts([part][..0]) == [];
  }

  lemma ParsePartsAppend(parts: seq<string>, part: string)
    ensures ParseParts(parts + [part]) == ParseParts(parts) + ParseParts([part])
  {
    assert (parts + [part])[..|parts|] == parts;
    assert [part][..0] == [];
  }

  lemma {:induction false} ParseInserted(parts: seq<string>, part: string)
    ensures multiset(ParseParts(InsertLast(parts, part, StringLe))) ==
            multiset(ParseParts(parts)) + multiset(ParseParts([part]))
  {
    if parts == [] {
      assert InsertLast(parts, part, StringLe) == [part];
    } else {
      var front, last := parts[..|parts| - 1], parts[|parts| - 1];
      assert parts == front + [last];
      ParsePartsAppend(front, last);
      if StringLe(last, part) {
        ParsePartsAppend(parts, part);
      } else {
        ParseInserted(front, part);
        ParsePartsAppend(InsertLast(front, part, StringLe), last);
      }
    }
  }

  /** Sorting the parts does not change which pairs they parse to. */
  lemma {:induction false} ParseSorted(parts: seq<string>)
    ensures multiset(ParseParts(StableSort(parts, StringLe))) == multiset(ParseParts(parts))
  {
    if parts != [] {
      var front, last := parts[..|parts| - 1], parts[|parts| - 1];
      assert parts == front + [last];
      ParseSorted(front);
      ParseInserted(StableSort(front, StringLe), last);
      ParsePartsAppend(front, last);
    }
  }

  lemma {:induction false} SplitJoin(parts: seq<string>)
    requires parts != [] && forall part :: part in parts ==> ',' !in part
    ensures Split(Join(parts), ',') == parts
  {
    var s := Join(parts);
    assert parts[0] in parts;
    if |parts| > 1 {
      SplitJoin(parts[1..]);
      assert s == parts[0] + [','] + Join(parts[1..]);
      IndexOfAfter(parts[0], ',', Join(parts[1..]));
      var n := |parts[0]|;
      assert s[..n] == parts[0] && s[n + 1..] == Join(parts[1..]);
    }
  }

  lemma {:induction false} SplitParts(s: string, separator: char)
    ensures forall part :: part in Split(s, separator) ==> separator !in part
    decreases |s|
  {
    if separator in s {
      var i := IndexOf(s, separator);
      SplitParts(s[i + 1..], separator);
    }
  }

  lemma {:induction false} ParsedPartsAreClean(parts: seq<string>)
    requires forall part :: part in parts ==> ',' !in part
    ensures Clean(ParseParts(parts))
  {
    if parts != [] {
      assert parts[|parts| - 1] in parts;
      ParsedPartsAreClean(parts[..|parts| - 1]);
    }
  }

  /** Reading back a printed selector yields the same pairs exactly when the
      selector is free of the separators. */
  lemma RoundTrip(selector: Labels)
    ensures multiset(ParseKey(SelectorKey(selector))) == multiset(selector) <==> Clean(selector)
  {
    var parts := StableSort(FormatAll(selector), StringLe);
    if Clean(selector) {
      ParseFormatAll(selector);
      ParseSorted(FormatAll(selector));
      StringLeIsTotal();
      StableSortSorts(FormatAll(selector), StringLe);
      PermutationFacts(parts, FormatAll(selector));
      if parts == [] {
        assert ParseKey("") == ParseParts([""]) == [];
      } else {
        SplitJoin(parts);
      }
    } else {
      var key := SelectorKey(selector);
      SplitParts(key, ',');
      ParsedPartsAreClean(Split(key, ','));
      var pair :| pair in selector && !CleanPair(pair);
      assert pair in multiset(selector);
    }
  }

  /** The rebuilt selector matches exactly the label sets the original matches. */
  lemma RoundTripMatches(selector: Labels, labels: Labels)
    requires Clean(selector)
    ensures Matches(labels, ParseKey(SelectorKey(selector))) <==> Matches(labels, selector)
  {
    RoundTrip(selector);
    PermutationFacts(ParseKey(SelectorKey(selector)), selector);
  }

  lemma KeyOfOne(pair: (string, string))
    ensures SelectorKey([pair]) == Format(pair)
  {
    assert FormatAll([pair]) == [Format(pair)];
    assert StableSort([Format(pair)], StringLe) == [Format(pair)];
  }

  lemma KeyOfTwo(p: (string, string), q: (string, string))
    requires StringLe(Format(p), Format(q))
    ensures SelectorKey([p, q]) == Format(p) + "," + Format(q)
  {
    var parts := [Format(p), Format(q)];
    assert [p, q][..1] == [p];
    assert FormatAll([p, q]) == FormatAll([p]) + [Format(q)] == parts;
    assert parts[..1] == [Format(p)];
    assert StableSort(parts[..1], StringLe) == [Format(p)];
    assert StableSort(parts, StringLe) == parts;
    assert Join(parts[1..]) == Format(q);
  }

  /** A comma in a value makes two selectors share a key although one matches
      labels that the other does not. */
  lemma CommaCollides(p: (string, string), q: (string, string))
    requires StringLe(Format(p), Format(q))
    ensures var merged := (p.0, p.1 + "," + Format(q));
            && SelectorKey([merged]) == SelectorKey([p, q])
            && Matches([merged], [merged])
            && !Matches([merged], [p, q])
  {
    var merged := (p.0, p.1 + "," + Format(q));
    KeyOfOne(merged);
    KeyOfTwo(p, q);
    assert Format(merged) == Format(p) + "," + Format(q);
    assert Lookup([merged], p.0) == Some(merged.1);
    assert p in [p, q] && |merged.1| > |p.1|;
  }

  // ----- Keys are canonical -----

  lemma {:induction false} StringLeReflects(a: string, b: string)
    ensures StringLe(a, b) || StringLe(b, a)
    ensures StringLe(a, b) && StringLe(b, a) ==> a == b
  {
    if a != [] && b != [] && a[0] == b[0] {
      StringLeReflects(a[1..], b[1..]);
      assert a == [a[0]] + a[1..] && b == [b[0]] + b[1..];
    }
  }

  lemma {:induction false} StringLeTransitive(a: string, b: string, c: string)
    requires StringLe(a, b) && StringLe(b, c)
    ensures StringLe(a, c)
  {
    if a != [] && b != [] && c != [] && a[0] == b[0] && b[0] == c[0] {
      StringLeTransitive(a[1..], b[1..], c[1..]);
    }
  }

  lemma StringLeIsTotal()
    ensures TotalPreorder(StringLe)
  {
    forall a, b
      ensures StringLe(a, b) || StringLe(b, a)
    {
      StringLeReflects(a, b);
    }
    forall a, b, c | StringLe(a, b) && StringLe(b, c)
      ensures StringLe(a, c)
    {
      StringLeTransitive(a, b, c);
    }
  }

  lemma SortedLast(s: seq<string>, t: seq<string>)
    requires SortedBy(s, StringLe) && s != [] && t != [] && t[|t| - 1] in s
    ensures StringLe(t[|t| - 1], s[|s| - 1])
  {
    StringLeReflects(s[|s| - 1], s[|s| - 1]);
  }

  lemma {:induction false} SortedPermutationsAgree(s: seq<string>, t: seq<string>)
    requires SortedBy(s, StringLe) && SortedBy(t, StringLe) && multiset(s) == multiset(t)
    ensures s == t
  {
    PermutationMember(s, t, "");
    if s != [] {
      var n := |s| - 1;
      PermutationMember(s, t, s[n]);
      PermutationMember(s, t, t[n]);
      SortedLast(s, t);
      SortedLast(t, s);
      StringLeReflects(s[n], t[n]);
      PermutationFronts(s, t);
      SortedPermutationsAgree(s[..n], t[..n]);
      assert s == s[..n] + [s[n]] && t == t[..n] + [t[n]];
    }
  }

  lemma FormatAllConcat(a: Labels, b: Labels)
    ensures FormatAll(a + b) == FormatAll(a) + FormatAll(b)
    decreases |b|
  {
    if b == [] {
      assert a + b == a;
    } else {
      assert (a + b)[..|a + b| - 1] == a + b[..|b| - 1];
      FormatAllConcat(a, b[..|b| - 1]);
    }
  }

  lemma FormatAllMoveLast(front: Labels, pair: (string, string), back: Labels)
    ensures multiset(FormatAll(front + [pair] + back)) == multiset(FormatAll(front + back)) + multiset{Format(pair)}
  {
    FormatAllConcat(front, [pair]);
    FormatAllConcat(front + [pair], back);
    FormatAllConcat(front, back);
    assert FormatAll([pair]) == [Format(pair)];
  }

  lemma {:induction false} FormatAllPermutes(a: Labels, b: Labels)
    requires multiset(a) == multiset(b)
    ensures multiset(FormatAll(a)) == multiset(FormatAll(b))
  {
    if a == [] {
      PermutationMember(a, b, ("", ""));
    } else {
      var front, last := a[..|a| - 1], a[|a| - 1];
      assert a == front + [last];
      PermutationMember(a, b, last);
      var i := IndexOf(b, last);
      var rest := b[..i] + b[i + 1..];
      assert b == b[..i] + [last] + b[i + 1..];
      assert multiset(b) == multiset(rest) + multiset{last};
      assert multiset(a) == multiset(front) + multiset{last};
      assert multiset(rest) == multiset(b) - multiset{last};
      assert multiset(front) == multiset(a) - multiset{last};
      FormatAllPermutes(front, rest);
      FormatAllMoveLast(b[..i], last, b[i + 1..]);
    }
  }

  /** Two selectors free of the separators share a key exactly when they have
      the same pairs, in whatever order. */
  lemma EqualKeys(a: Labels, b: Labels)
    requires Clean(a) && Clean(b)
    ensures SelectorKey(a) == SelectorKey(b) <==> multiset(a) == multiset(b)
  {
    RoundTrip(a);
    RoundTrip(b);
    if multiset(a) == multiset(b) {
      StringLeIsTotal();
      FormatAllPermutes(a, b);
      StableSortSorts(FormatAll(a), StringLe);
      StableSortSorts(FormatAll(b), StringLe);
      SortedPermutationsAgree(StableSort(FormatAll(a), StringLe), StableSort(FormatAll(b), StringLe));
    }
  }
}
