/**
 * The voice catalog of app/page.tsx: `loadVoices` groups the host's voices
 * by primary language subtag, sorts the groups by display name and picks a
 * default voice and language; an effect keeps the selected voice inside the
 * selected language.
 *
 * Three host services are parameters: `lookup` stands for the name
 * `Intl.DisplayNames(...).of(code)` returns, `accepts` for whether that
 * call returns at all (it throws a RangeError for a code that is not a
 * well-formed language subtag, such as "" or "en_US"), and `leq(a, b)` for
 * `a.localeCompare(b) <= 0`, assumed only to be a total preorder. A subtag
 * that names a member of `Object.prototype` ("toString", "valueOf") also
 * makes the grouping loop throw.
 */
module VoiceCatalog {
  import opened Wrappers

  datatype Voice = Voice(name: string, lang: string, localService: bool, isDefault: bool)

  datatype LanguageGroup = LanguageGroup(code: string, name: string, voices: seq<Voice>)

  // ---------------------------------------------------------------------
  // Language subtags and display names

  /** `lang.split("-")[0]`: everything before the first hyphen, or all of lang. */
  function PrimaryTag(lang: string): (r: string)
    ensures r <= lang
    ensures '-' !in r
    ensures |r| < |lang| ==> lang[|r|] == '-'
  {
    if lang == [] || lang[0] == '-' then [] else [lang[0]] + PrimaryTag(lang[1..])
  }

  /** `new Intl.DisplayNames(...).of(code) || code`: the code itself when no non-empty name exists. */
  function DisplayName(lookup: string -> Option<string>, code: string): (r: string)
    ensures r == code || lookup(code) == Some(r)
    ensures r == "" ==> code == ""
  {
    match lookup(code)
    case Some(n) => if n != "" then n else code
    case None => code
  }

  // ---------------------------------------------------------------------
  // Grouping: the reference definition

  /** The distinct primary subtags of the voices, in order of first appearance. */
  function Codes(voices: seq<Voice>): (cs: seq<string>)
    ensures forall i, j :: 0 <= i < j < |cs| ==> cs[i] != cs[j]
    decreases |voices|
  {
    if voices == [] then []
    else
      var init := voices[..|voices| - 1];
      var t := PrimaryTag(voices[|voices| - 1].lang);
      var cs := Codes(init);
      if t in cs then cs else cs + [t]
  }

  /** A code is listed exactly when some voice has it as primary subtag. */
  lemma {:induction false} CodesMembership(voices: seq<Voice>)
    ensures forall c :: c in Codes(voices) <==> exists v :: v in voices && PrimaryTag(v.lang) == c
    decreases |voices|
  {
    if voices != [] {
      var init := voices[..|voices| - 1];
      assert voices == init + [voices[|voices| - 1]];
      CodesMembership(init);
    }
  }

  /** The voices whose primary subtag is code, in input order. */
  function VoicesWithTag(voices: seq<Voice>, code: string): (r: seq<Voice>)
    ensures forall v :: v in r <==> v in voices && PrimaryTag(v.lang) == code
    ensures |r| <= |voices|
    decreases |voices|
  {
    if voices == [] then []
    else
      var init := voices[..|voices| - 1];
      var last := voices[|voices| - 1];
      assert voices == init + [last];
      VoicesWithTag(init, code) + (if PrimaryTag(last.lang) == code then [last] else [])
  }

  /** One group per code, holding that code's voices. */
  function GroupsFor(voices: seq<Voice>, cs: seq<string>, lookup: string -> Option<string>): (gs: seq<LanguageGroup>)
    ensures |gs| == |cs|
  {
    seq(|cs|, i requires 0 <= i < |cs| =>
      LanguageGroup(cs[i], DisplayName(lookup, cs[i]), VoicesWithTag(voices, cs[i])))
  }

  /** What `Object.values(groups)` holds once the `forEach` has run to its end. */
  function Grouped(voices: seq<Voice>, lookup: string -> Option<string>): (gs: seq<LanguageGroup>)
    ensures |gs| == |Codes(voices)|
    ensures DistinctCodes(gs)
    ensures forall i :: 0 <= i < |gs| ==> gs[i].name == DisplayName(lookup, gs[i].code)
  {
    GroupsFor(voices, Codes(voices), lookup)
  }

  /** All the groups' voices, one group after another. */
  function Flatten(gs: seq<LanguageGroup>): seq<Voice>
  {
    if gs == [] then [] else gs[0].voices + Flatten(gs[1..])
  }

  predicate DistinctCodes(gs: seq<LanguageGroup>)
  {
    forall i, j :: 0 <= i < j < |gs| ==> gs[i].code != gs[j].code
  }

  // ---------------------------------------------------------------------
  // Grouping: the loop of `loadVoices`

  /**
   * The `forEach` over the voices: a dictionary keyed by primary subtag,
   * filled in place, whose values are returned in key-insertion order.
   */
  method GroupVoices(available: seq<Voice>, lookup: string -> Option<string>, accepts: string -> bool)
    returns (groups: Option<seq<LanguageGroup>>)
    ensures groups.None? <==> !AllAccepted(available, accepts)
    ensures groups.Some? ==> groups.value == Grouped(available, lookup)
  {
    var dict: map<string, LanguageGroup> := map[];
    var keys: seq<string> := [];
    var i := 0;
    while i < |available|
      invariant 0 <= i <= |available|
      invariant GroupsSoFar(dict, keys, available[..i], lookup)
      invariant AllAccepted(available[..i], accepts)
    {
      var voice := available[i];
      var langCode := PrimaryTag(voice.lang);
      if !accepts(langCode) {
        assert voice in available;
        return None;
      }
      if Inherited(langCode) {
        // `groups[langCode]` is the inherited member, so no group is made
        // and `.voices.push` throws a TypeError
        assert voice in available;
        return None;
      }
      var langName := DisplayName(lookup, langCode);
      ghost var before, keysBefore := dict, keys;
      if langCode !in dict {
        dict := dict[langCode := LanguageGroup(langCode, langName, [])];
        keys := keys + [langCode];
      }
      ghost var created := dict;
      dict := dict[langCode := dict[langCode].(voices := dict[langCode].voices + [voice])];
      assert available[..i + 1] == available[..i] + [voice];
      GroupsSoFarStep(before, keysBefore, created, dict, keys, available[..i], voice, available[..i + 1], lookup);
      i := i + 1;
    }
    assert available[..i] == available;
    var values := seq(|keys|, j requires 0 <= j < |keys| => dict[keys[j]]);
    ValuesAreGrouped(dict, keys, available, lookup, values);
    groups := Some(values);
  }

  /**
   * The names `Object.prototype` gives every plain object. Looking one of
   * them up in `groups` finds the inherited member instead of undefined.
   */
  const InheritedKeys: set<string> := {
    "constructor", "hasOwnProperty", "isPrototypeOf", "propertyIsEnumerable",
    "toLocaleString", "toString", "valueOf", "__proto__",
    "__defineGetter__", "__defineSetter__", "__lookupGetter__", "__lookupSetter__"
  }

  /**
   * The `forEach` body completes for every voice: the display-name lookup
   * accepts its primary subtag, and the subtag is not an inherited key.
   */
  predicate AllAccepted(voices: seq<Voice>, accepts: string -> bool)
  {
    forall v :: v in voices ==> accepts(PrimaryTag(v.lang)) && !Inherited(PrimaryTag(v.lang))
  }

  /** Whether `groups[code]` on an empty object literal is an inherited member. */
  predicate Inherited(code: string)
  {
    code in InheritedKeys
  }

  /** `Object.values` of the finished dictionary, in key order, is the reference grouping. */
  lemma ValuesAreGrouped(dict: map<string, LanguageGroup>, keys: seq<string>, voices: seq<Voice>,
                         lookup: string -> Option<string>, gs: seq<LanguageGroup>)
    requires GroupsSoFar(dict, keys, voices, lookup)
    requires |gs| == |keys| && forall j :: 0 <= j < |gs| ==> gs[j] == dict[keys[j]]
    ensures gs == Grouped(voices, lookup)
  {
    var expected := Grouped(voices, lookup);
    forall j | 0 <= j < |gs| ensures gs[j] == expected[j] {
      assert keys[j] in keys;
    }
  }

  /** The loop invariant: the dictionary and its key order after the voices in seen. */
  ghost predicate GroupsSoFar(dict: map<string, LanguageGroup>, keys: seq<string>, seen: seq<Voice>,
                              lookup: string -> Option<string>)
  {
    && keys == Codes(seen)
    && (forall k :: k in dict <==> k in keys)
    && (forall k :: k in keys ==> dict[k] == LanguageGroup(k, DisplayName(lookup, k), VoicesWithTag(seen, k)))
  }

  lemma GroupsSoFarStep(before: map<string, LanguageGroup>, keysBefore: seq<string>,
                        created: map<string, LanguageGroup>,
                        after: map<string, LanguageGroup>, keysAfter: seq<string>,
                        seen: seq<Voice>, voice: Voice, next: seq<Voice>, lookup: string -> Option<string>)
    requires next == seen + [voice]
    requires GroupsSoFar(before, keysBefore, seen, lookup)
    requires var t := PrimaryTag(voice.lang);
      && created == (if t in before then before else before[t := LanguageGroup(t, DisplayName(lookup, t), [])])
      && keysAfter == (if t in before then keysBefore else keysBefore + [t])
      && after == created[t := created[t].(voices := created[t].voices + [voice])]
    ensures GroupsSoFar(after, keysAfter, next, lookup)
  {
    GroupingStep(seen, voice);
    var t := PrimaryTag(voice.lang);
    assert keysAfter == Codes(next);
    assert forall k :: k in after <==> k in keysAfter;
    forall k | k in keysAfter
      ensures after[k] == LanguageGroup(k, DisplayName(lookup, k), VoicesWithTag(next, k))
    {
      if k != t {
        assert after[k] == before[k];
        assert VoicesWithTag(next, k) == VoicesWithTag(seen, k) + [];
      } else if t in before {
        assert after[k].voices == before[k].voices + [voice];
      } else {
        assert created[t].voices + [voice] == [voice];
        assert VoicesWithTag(next, k) == [] + [voice];
      }
    }
  }

  /** One more voice: its code is appended if new, and it joins its own group only. */
  lemma GroupingStep(seen: seq<Voice>, voice: Voice)
    ensures Codes(seen + [voice]) == if PrimaryTag(voice.lang) in Codes(seen) then Codes(seen)
                                     else Codes(seen) + [PrimaryTag(voice.lang)]
    ensures PrimaryTag(voice.lang) !in Codes(seen) ==> VoicesWithTag(seen, PrimaryTag(voice.lang)) == []
    ensures forall k :: VoicesWithTag(seen + [voice], k)
                     == VoicesWithTag(seen, k) + (if PrimaryTag(voice.lang) == k then [voice] else [])
  {
    assert (seen + [voice])[..|seen|] == seen;
    if PrimaryTag(voice.lang) !in Codes(seen) {
      VoicesWithTagAbsent(seen, PrimaryTag(voice.lang));
    }
  }

  // ---------------------------------------------------------------------
  // Grouping: what it guarantees

  lemma VoicesWithTagAbsent(voices: seq<Voice>, code: string)
    requires code !in Codes(voices)
    ensures VoicesWithTag(voices, code) == []
  {
    CodesMembership(voices);
  }

  /** The concatenation of the voices of the groups for cs. */
  function Collect(voices: seq<Voice>, cs: seq<string>): seq<Voice>
  {
    if cs == [] then [] else VoicesWithTag(voices, cs[0]) + Collect(voices, cs[1..])
  }

  lemma {:induction false} FlattenGroupsFor(voices: seq<Voice>, cs: seq<string>, lookup: string -> Option<string>)
    ensures Flatten(GroupsFor(voices, cs, lookup)) == Collect(voices, cs)
  {
    if cs != [] {
      assert GroupsFor(voices, cs, lookup)[1..] == GroupsFor(voices, cs[1..], lookup);
      FlattenGroupsFor(voices, cs[1..], lookup);
    }
  }

  lemma {:induction false} CollectSnoc(s: seq<Voice>, v: Voice, cs: seq<string>)
    requires forall i, j :: 0 <= i < j < |cs| ==> cs[i] != cs[j]
    ensures multiset(Collect(s + [v], cs))
         == multiset(Collect(s, cs)) + (if PrimaryTag(v.lang) in cs then multiset{v} else multiset{})
  {
    if cs != [] {
      assert (s + [v])[..|s + [v]| - 1] == s;
      CollectSnoc(s, v, cs[1..]);
      if PrimaryTag(v.lang) == cs[0] {
        assert PrimaryTag(v.lang) !in cs[1..];
      }
    }
  }

  lemma {:induction false} CollectAppendCode(s: seq<Voice>, cs: seq<string>, t: string)
    ensures Collect(s, cs + [t]) == Collect(s, cs) + VoicesWithTag(s, t)
  {
    if cs == [] {
      assert Collect(s, [t]) == VoicesWithTag(s, t) + Collect(s, []);
    } else {
      assert (cs + [t])[1..] == cs[1..] + [t];
      CollectAppendCode(s, cs[1..], t);
    }
  }

  lemma {:induction false} CollectCodesIsPermutation(voices: seq<Voice>)
    ensures multiset(Collect(voices, Codes(voices))) == multiset(voices)
    decreases |voices|
  {
    if voices != [] {
      var s := voices[..|voices| - 1];
      var v := voices[|voices| - 1];
      assert voices == s + [v];
      var cs := Codes(s);
      var t := PrimaryTag(v.lang);
      CollectCodesIsPermutation(s);
      CollectSnoc(s, v, cs);
      if t !in cs {
        CollectAppendCode(voices, cs, t);
        VoicesWithTagAbsent(s, t);
        assert VoicesWithTag(voices, t) == VoicesWithTag(s, t) + [v];
      }
    }
  }

  /**
   * Grouping is a partition: every group holds only voices of its own code,
   * no two groups share a code, every voice has the group of its primary
   * subtag, and the groups' voices together are the input, each voice as
   * often as it occurs there.
   */
  lemma GroupedIsPartition(voices: seq<Voice>, lookup: string -> Option<string>)
    ensures var gs := Grouped(voices, lookup);
      && (forall i, v :: 0 <= i < |gs| && v in gs[i].voices ==> v in voices && PrimaryTag(v.lang) == gs[i].code)
      && DistinctCodes(gs)
      && (forall v :: v in voices ==>
            exists i :: 0 <= i < |gs| && gs[i].code == PrimaryTag(v.lang) && v in gs[i].voices)
      && multiset(Flatten(gs)) == multiset(voices)
  {
    EveryVoiceGrouped(voices, lookup);
    GroupedIsPermutation(voices, lookup);
  }

  lemma EveryVoiceGrouped(voices: seq<Voice>, lookup: string -> Option<string>)
    ensures var gs := Grouped(voices, lookup);
      forall v :: v in voices ==>
        exists i :: 0 <= i < |gs| && gs[i].code == PrimaryTag(v.lang) && v in gs[i].voices
  {
    var gs := Grouped(voices, lookup);
    var cs := Codes(voices);
    CodesMembership(voices);
    forall v | v in voices
      ensures exists i :: 0 <= i < |gs| && gs[i].code == PrimaryTag(v.lang) && v in gs[i].voices
    {
      var t := PrimaryTag(v.lang);
      assert t in cs;
      var i :| 0 <= i < |cs| && cs[i] == t;
      assert gs[i].voices == VoicesWithTag(voices, t);
    }
  }

  lemma GroupedIsPermutation(voices: seq<Voice>, lookup: string -> Option<string>)
    ensures multiset(Flatten(Grouped(voices, lookup))) == multiset(voices)
  {
    FlattenGroupsFor(voices, Codes(voices), lookup);
    CollectCodesIsPermutation(voices);
  }

  /** No group is empty: each one lists at least the voice that created it. */
  lemma GroupsNonEmpty(voices: seq<Voice>, lookup: string -> Option<string>)
    ensures forall i :: 0 <= i < |Grouped(voices, lookup)| ==> |Grouped(voices, lookup)[i].voices| > 0
  {
    var gs := Grouped(voices, lookup);
    var cs := Codes(voices);
    CodesMembership(voices);
    forall i | 0 <= i < |gs| ensures |gs[i].voices| > 0 {
      assert cs[i] in cs;
      var v :| v in voices && PrimaryTag(v.lang) == cs[i];
      assert v in VoicesWithTag(voices, cs[i]);
    }
  }

  /** Filtering by subtag distributes over concatenation, so groups keep the input order. */
  lemma {:induction false} VoicesWithTagAppend(a: seq<Voice>, b: seq<Voice>, code: string)
    ensures VoicesWithTag(a + b, code) == VoicesWithTag(a, code) + VoicesWithTag(b, code)
    decreases |b|
  {
    if b == [] {
      assert a + b == a;
    } else {
      var init := b[..|b| - 1];
      assert (a + b)[..|a + b| - 1] == a + init;
      assert (a + b)[|a + b| - 1] == b[|b| - 1];
      VoicesWithTagAppend(a, init, code);
    }
  }

  // ---------------------------------------------------------------------
  // Sorting by display name: `sort((a, b) => a.name.localeCompare(b.name))`

  ghost predicate TotalPreorder(leq: (string, string) -> bool)
  {
    && (forall a, b :: leq(a, b) || leq(b, a))
    && (forall a, b, c :: leq(a, b) && leq(b, c) ==> leq(a, c))
  }

  predicate SortedByName(gs: seq<LanguageGroup>, leq: (string, string) -> bool)
  {
    forall i, j :: 0 <= i < j < |gs| ==> leq(gs[i].name, gs[j].name)
  }

  /** Insert g before the first group it does not come after: equal names keep g first. */
  function Insert(g: LanguageGroup, gs: seq<LanguageGroup>, leq: (string, string) -> bool): (r: seq<LanguageGroup>)
    ensures multiset(r) == multiset(gs) + multiset{g}
  {
    if gs == [] then [g]
    else if leq(g.name, gs[0].name) then [g] + gs
    else
      assert gs == [gs[0]] + gs[1..];
      [gs[0]] + Insert(g, gs[1..], leq)
  }

  /** A stable insertion sort by name; JavaScript's `Array.prototype.sort` is stable too. */
  function SortGroups(gs: seq<LanguageGroup>, leq: (string, string) -> bool): (r: seq<LanguageGroup>)
    ensures multiset(r) == multiset(gs)
  {
    if gs == [] then []
    else
      assert gs == [gs[0]] + gs[1..];
      Insert(gs[0], SortGroups(gs[1..], leq), leq)
  }

  lemma {:induction false} InsertSorted(g: LanguageGroup, gs: seq<LanguageGroup>, leq: (string, string) -> bool)
    requires TotalPreorder(leq) && SortedByName(gs, leq)
    ensures SortedByName(Insert(g, gs, leq), leq)
  {
    var r := Insert(g, gs, leq);
    if gs != [] {
      if leq(g.name, gs[0].name) {
        forall j | 1 <= j < |r| ensures leq(r[0].name, r[j].name) {
          assert r[j] == gs[j - 1];
        }
      } else {
        assert leq(gs[0].name, g.name);
        var rest := Insert(g, gs[1..], leq);
        InsertSorted(g, gs[1..], leq);
        forall k | 0 <= k < |gs[1..]| ensures leq(gs[0].name, gs[1..][k].name) {
          assert gs[1..][k] == gs[k + 1];
        }
        InsertBelow(gs[0].name, g, gs[1..], leq);
        assert r == [gs[0]] + rest;
      }
    }
  }

  /** A name at or before g's and every name of gs is at or before every name after inserting g. */
  lemma InsertBelow(x: string, g: LanguageGroup, gs: seq<LanguageGroup>, leq: (string, string) -> bool)
    requires leq(x, g.name)
    requires forall k :: 0 <= k < |gs| ==> leq(x, gs[k].name)
    ensures forall j :: 0 <= j < |Insert(g, gs, leq)| ==> leq(x, Insert(g, gs, leq)[j].name)
  {
    var rest := Insert(g, gs, leq);
    forall j | 0 <= j < |rest| ensures leq(x, rest[j].name) {
      assert rest[j] in multiset(rest);
      if rest[j] != g {
        assert rest[j] in gs;
        var k :| 0 <= k < |gs| && gs[k] == rest[j];
      }
    }
  }

  lemma {:induction false} SortGroupsSorted(gs: seq<LanguageGroup>, leq: (string, string) -> bool)
    requires TotalPreorder(leq)
    ensures SortedByName(SortGroups(gs, leq), leq)
  {
    if gs != [] {
      SortGroupsSorted(gs[1..], leq);
      InsertSorted(gs[0], SortGroups(gs[1..], leq), leq);
    }
  }

  lemma {:induction false} InsertDistinct(g: LanguageGroup, gs: seq<LanguageGroup>, leq: (string, string) -> bool)
    requires DistinctCodes(gs)
    requires forall h :: h in gs ==> h.code != g.code
    ensures DistinctCodes(Insert(g, gs, leq))
  {
    if gs != [] && !leq(g.name, gs[0].name) {
      InsertDistinct(g, gs[1..], leq);
      var rest := Insert(g, gs[1..], leq);
      forall j | 0 <= j < |rest| ensures rest[j].code != gs[0].code {
        assert rest[j] in multiset(rest);
      }
    }
  }

  lemma {:induction false} SortGroupsDistinct(gs: seq<LanguageGroup>, leq: (string, string) -> bool)
    requires DistinctCodes(gs)
    ensures DistinctCodes(SortGroups(gs, leq))
  {
    if gs != [] {
      SortGroupsDistinct(gs[1..], leq);
      var sorted := SortGroups(gs[1..], leq);
      forall h | h in sorted ensures h.code != gs[0].code {
        assert h in multiset(sorted);
        assert h in gs[1..];
        var k :| 0 <= k < |gs[1..]| && gs[1..][k] == h;
        assert gs[k + 1] == h;
      }
      InsertDistinct(gs[0], sorted, leq);
    }
  }

  /**
   * What `setLanguageGroups` receives: sorted by name, with unique codes,
   * a rearrangement of the grouping.
   */
  lemma LanguageGroupsSorted(voices: seq<Voice>, lookup: string -> Option<string>, leq: (string, string) -> bool)
    requires TotalPreorder(leq)
    ensures var r := SortGroups(Grouped(voices, lookup), leq);
      && SortedByName(r, leq)
      && DistinctCodes(r)
      && multiset(r) == multiset(Grouped(voices, lookup))
  {
    SortGroupsSorted(Grouped(voices, lookup), leq);
    GroupedIsPartition(voices, lookup);
    SortGroupsDistinct(Grouped(voices, lookup), leq);
  }

  // ---------------------------------------------------------------------
  // Default selection

  /** The index of the first voice with `default` set, if any. */
  function FirstDefault(voices: seq<Voice>): (r: Option<nat>)
    ensures r.Some? ==> r.value < |voices| && voices[r.value].isDefault
    ensures r.Some? ==> forall j :: 0 <= j < r.value ==> !voices[j].isDefault
    ensures r.None? ==> forall j :: 0 <= j < |voices| ==> !voices[j].isDefault
  {
    if voices == [] then None
    else if voices[0].isDefault then Some(0)
    else
      match FirstDefault(voices[1..])
      case Some(i) => Some(i + 1)
      case None => None
  }

  /** `availableVoices.find((voice) => voice.default) || availableVoices[0]` */
  function DefaultVoice(voices: seq<Voice>): (r: Voice)
    requires |voices| > 0
    ensures r in voices
    ensures (exists i :: 0 <= i < |voices| && voices[i].isDefault) ==>
      exists i :: 0 <= i < |voices| && voices[i] == r && r.isDefault &&
        forall j :: 0 <= j < i ==> !voices[j].isDefault
    ensures (forall i :: 0 <= i < |voices| ==> !voices[i].isDefault) ==> r == voices[0]
  {
    match FirstDefault(voices)
    case Some(i) => voices[i]
    case None => voices[0]
  }

  // ---------------------------------------------------------------------
  // The language cross-filter

  /** `voice.lang.startsWith(lang)` */
  predicate StartsWith(s: string, prefix: string): (b: bool)
    ensures b <==> |prefix| <= |s| && s[..|prefix|] == prefix
  {
    prefix <= s
  }

  /** `voices.filter((voice) => voice.lang.startsWith(lang))` */
  function LanguageVoices(voices: seq<Voice>, lang: string): (r: seq<Voice>)
    ensures forall v :: v in r <==> v in voices && StartsWith(v.lang, lang)
  {
    if voices == [] then []
    else if StartsWith(voices[0].lang, lang) then [voices[0]] + LanguageVoices(voices[1..], lang)
    else LanguageVoices(voices[1..], lang)
  }

  /** The index of the first voice whose tag starts with lang, if any. */
  function FirstWithPrefix(voices: seq<Voice>, lang: string): (r: Option<nat>)
    ensures r.Some? ==> r.value < |voices| && StartsWith(voices[r.value].lang, lang)
    ensures r.Some? ==> forall j :: 0 <= j < r.value ==> !StartsWith(voices[j].lang, lang)
    ensures r.None? ==> forall j :: 0 <= j < |voices| ==> !StartsWith(voices[j].lang, lang)
  {
    if voices == [] then None
    else if StartsWith(voices[0].lang, lang) then Some(0)
    else
      match FirstWithPrefix(voices[1..], lang)
      case Some(i) => Some(i + 1)
      case None => None
  }

  /** The filtered list is empty exactly when no voice matches, and otherwise starts with the first match. */
  lemma {:induction false} LanguageVoicesHead(voices: seq<Voice>, lang: string)
    ensures LanguageVoices(voices, lang) == [] <==> FirstWithPrefix(voices, lang).None?
    ensures LanguageVoices(voices, lang) != [] ==>
      LanguageVoices(voices, lang)[0] == voices[FirstWithPrefix(voices, lang).value]
  {
    if voices != [] && !StartsWith(voices[0].lang, lang) {
      LanguageVoicesHead(voices[1..], lang);
    }
  }

  /** `languageVoices.some((voice) => voice.name === selectedVoice)` */
  predicate HasVoiceNamed(vs: seq<Voice>, name: string): (b: bool)
    ensures b <==> name in (set v | v in vs :: v.name)
  {
    exists i :: 0 <= i < |vs| && vs[i].name == name
  }

  /**
   * The body of the language-change effect: with a language selected and
   * voices present, snap the selected voice to the first voice of that
   * language unless it already is one of them.
   */
  function LanguageEffect(voices: seq<Voice>, lang: string, current: string): (r: string)
    ensures lang != "" && |voices| > 0 && FirstWithPrefix(voices, lang).Some?
              && !HasVoiceNamed(LanguageVoices(voices, lang), current)
            ==> r == voices[FirstWithPrefix(voices, lang).value].name
    ensures lang == "" || FirstWithPrefix(voices, lang).None?
              || HasVoiceNamed(LanguageVoices(voices, lang), current)
            ==> r == current
    ensures lang != "" && LanguageVoices(voices, lang) != [] ==> HasVoiceNamed(LanguageVoices(voices, lang), r)
  {
    LanguageVoicesHead(voices, lang);
    if lang != "" && |voices| > 0 then
      var languageVoices := LanguageVoices(voices, lang);
      if |languageVoices| > 0 && !HasVoiceNamed(languageVoices, current) then languageVoices[0].name
      else current
    else current
  }

  /** Running the effect again changes nothing: the selection it leaves is a fixed point. */
  lemma LanguageEffectIdempotent(voices: seq<Voice>, lang: string, current: string)
    ensures LanguageEffect(voices, lang, LanguageEffect(voices, lang, current)) == LanguageEffect(voices, lang, current)
  {
  }

  /** Every member of the group for code passes the `startsWith(code)` filter. */
  lemma GroupWithinFilter(voices: seq<Voice>, code: string)
    ensures forall v :: v in VoicesWithTag(voices, code) ==> v in LanguageVoices(voices, code)
  {
  }

  /**
   * The converse fails: the filter for Finnish ("fi") also admits a
   * Filipino voice ("fil-PH"), which is in the "fil" group, and keeps it
   * selected.
   */
  lemma FilterWiderThanGroup()
    ensures var fil := Voice("Filipino", "fil-PH", true, false);
      var fi := Voice("Finnish", "fi-FI", true, false);
      var vs := [fil, fi];
      && fil in LanguageVoices(vs, "fi")
      && fil !in VoicesWithTag(vs, "fi")
      && LanguageEffect(vs, "fi", "Filipino") == "Filipino"
  {
    var fil := Voice("Filipino", "fil-PH", true, false);
    var fi := Voice("Finnish", "fi-FI", true, false);
    var vs := [fil, fi];
    assert PrimaryTag("fil-PH") == "fil" by {
      assert "fil-PH"[1..] == "il-PH";
      assert "il-PH"[1..] == "l-PH";
      assert "l-PH"[1..] == "-PH";
    }
    assert StartsWith(fil.lang, "fi");
    assert LanguageVoices(vs, "fi")[0] == fil;
    assert HasVoiceNamed(LanguageVoices(vs, "fi"), "Filipino");
  }

  /** The selection is consistent when the selected voice passes the filter of the selected language, or none can. */
  predicate SelectionConsistent(voices: seq<Voice>, lang: string, voice: string)
  {
    lang != "" && LanguageVoices(voices, lang) != [] ==> HasVoiceNamed(LanguageVoices(voices, lang), voice)
  }

  /** The default selection is already consistent, so the effect leaves it alone after a load. */
  lemma DefaultSelectionStable(voices: seq<Voice>)
    requires |voices| > 0
    ensures var d := DefaultVoice(voices);
      && SelectionConsistent(voices, PrimaryTag(d.lang), d.name)
      && LanguageEffect(voices, PrimaryTag(d.lang), d.name) == d.name
  {
    var d := DefaultVoice(voices);
    var lang := PrimaryTag(d.lang);
    assert d in LanguageVoices(voices, lang);
    var lv := LanguageVoices(voices, lang);
    var i :| 0 <= i < |lv| && lv[i] == d;
    assert HasVoiceNamed(lv, d.name);
  }

  // ---------------------------------------------------------------------
  // The page's catalog state

  class Catalog {
    var voices: seq<Voice>
    var languageGroups: seq<LanguageGroup>
    var selectedVoice: string
    var selectedLanguage: string

    ghost predicate Valid()
      reads this
    {
      SelectionConsistent(voices, selectedLanguage, selectedVoice)
    }

    constructor ()
      ensures Valid()
      ensures voices == [] && languageGroups == [] && selectedVoice == "" && selectedLanguage == ""
    {
      voices, languageGroups, selectedVoice, selectedLanguage := [], [], "", "";
    }

    /**
     * `loadVoices`, then the language effect its state changes trigger.
     * An empty list keeps the old selection. When the display-name lookup
     * throws for some voice's subtag, `loadVoices` stops after `setVoices`:
     * the groups and the selection stay as they were, and only the effect
     * runs on the new voices.
     */
    method LoadVoices(available: seq<Voice>, lookup: string -> Option<string>, accepts: string -> bool,
                      leq: (string, string) -> bool)
      modifies this
      ensures Valid()
      ensures voices == available
      ensures !AllAccepted(available, accepts) ==>
        languageGroups == old(languageGroups)
        && selectedLanguage == old(selectedLanguage)
        && selectedVoice == LanguageEffect(available, old(selectedLanguage), old(selectedVoice))
      ensures AllAccepted(available, accepts) ==>
        languageGroups == SortGroups(Grouped(available, lookup), leq)
      ensures AllAccepted(available, accepts) && |available| > 0 ==>
        selectedVoice == DefaultVoice(available).name
        && selectedLanguage == PrimaryTag(DefaultVoice(available).lang)
      ensures AllAccepted(available, accepts) && |available| == 0 ==>
        selectedVoice == old(selectedVoice) && selectedLanguage == old(selectedLanguage)
    {
      voices := available;
      var groups := GroupVoices(available, lookup, accepts);
      if groups.None? {
        selectedVoice := LanguageEffect(voices, selectedLanguage, selectedVoice);
        return;
      }
      languageGroups := SortGroups(groups.value, leq);
      if |available| > 0 {
        var defaultVoice := DefaultVoice(available);
        selectedVoice := defaultVoice.name;
        selectedLanguage := PrimaryTag(defaultVoice.lang);
        DefaultSelectionStable(available);
      }
      selectedVoice := LanguageEffect(voices, selectedLanguage, selectedVoice);
    }

    /** The language select's `onValueChange`, then the language effect. */
    method SelectLanguage(code: string)
      modifies this`selectedLanguage, this`selectedVoice
      ensures Valid()
      ensures selectedLanguage == code
      ensures selectedVoice == LanguageEffect(voices, code, old(selectedVoice))
    {
      selectedLanguage := code;
      selectedVoice := LanguageEffect(voices, selectedLanguage, selectedVoice);
    }

    /** The voice select's `onValueChange`, then the language effect. */
    method SelectVoice(name: string)
      modifies this`selectedVoice
      ensures Valid()
      ensures selectedVoice == LanguageEffect(voices, selectedLanguage, name)
    {
      selectedVoice := name;
      selectedVoice := LanguageEffect(voices, selectedLanguage, selectedVoice);
    }
  }
}
