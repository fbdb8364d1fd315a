/**
 * The language screen: the available languages split into a suggested group
 * and the rest, the check mark on the current language, and the press that
 * asks the provider for an item's language.
 */
module LanguageScreen {
  import opened Translation

  /** The entries of `s` that satisfy `keep`, in their original order (`Array.prototype.filter`). */
  function Filter(s: seq<Language>, keep: Language -> bool): (r: seq<Language>)
    ensures |r| <= |s|
  {
    if s == [] then []
    else (if keep(s[0]) then [s[0]] else []) + Filter(s[1..], keep)
  }

  /** The filtered list holds exactly the entries that pass the test. */
  lemma {:induction false} FilterMembers(s: seq<Language>, keep: Language -> bool)
    ensures forall x :: x in Filter(s, keep) <==> x in s && keep(x)
  {
    if s != [] {
      FilterMembers(s[1..], keep);
      assert s == [s[0]] + s[1..];
    }
  }

  /** `a` is `b` with some entries left out and the rest in the same order. */
  predicate IsSubsequence(a: seq<Language>, b: seq<Language>)
    decreases |b|
  {
    a == [] || (b != [] && ((a[0] == b[0] && IsSubsequence(a[1..], b[1..])) || IsSubsequence(a, b[1..])))
  }

  /** Filtering keeps the original relative order. */
  lemma {:induction false} FilterKeepsOrder(s: seq<Language>, keep: Language -> bool)
    ensures IsSubsequence(Filter(s, keep), s)
  {
    if s != [] {
      FilterKeepsOrder(s[1..], keep);
      if keep(s[0]) {
        assert Filter(s, keep) == [s[0]] + Filter(s[1..], keep);
        assert Filter(s, keep)[1..] == Filter(s[1..], keep);
      } else {
        assert Filter(s, keep) == Filter(s[1..], keep);
      }
    }
  }

  /** Two complementary filters split a list without loss or duplication. */
  lemma {:induction false} FilterPartition(s: seq<Language>, keep: Language -> bool, drop: Language -> bool)
    requires forall x :: drop(x) == !keep(x)
    ensures multiset(Filter(s, keep)) + multiset(Filter(s, drop)) == multiset(s)
  {
    if s != [] {
      FilterPartition(s[1..], keep, drop);
      var head := [s[0]];
      assert s == head + s[1..];
      if keep(s[0]) {
        assert Filter(s, keep) == head + Filter(s[1..], keep);
        assert Filter(s, drop) == Filter(s[1..], drop);
      } else {
        assert Filter(s, keep) == Filter(s[1..], keep);
        assert Filter(s, drop) == head + Filter(s[1..], drop);
      }
    }
  }

  /** The test of `suggestedLanguages`' filter. */
  predicate InSuggestedGroup(l: Language) {
    l.code == "en" || l.code == "hi"
  }

  /** The test of `otherLanguages`' filter. */
  predicate InOtherGroup(l: Language) {
    l.code != "en" && l.code != "hi"
  }

  /** `suggestedLanguages`: the entries whose code is en or hi. */
  function SuggestedLanguages(langs: seq<Language>): seq<Language>
  {
    Filter(langs, InSuggestedGroup)
  }

  /** `otherLanguages`: the entries whose code is neither en nor hi. */
  function OtherLanguages(langs: seq<Language>): seq<Language>
  {
    Filter(langs, InOtherGroup)
  }

  /**
   * The two groups partition the list: each holds exactly the entries of its
   * kind, keeps their order, and together they hold every entry once.
   */
  lemma GroupsPartition(langs: seq<Language>)
    ensures forall l :: l in SuggestedLanguages(langs) <==> l in langs && InSuggestedGroup(l)
    ensures forall l :: l in OtherLanguages(langs) <==> l in langs && !InSuggestedGroup(l)
    ensures IsSubsequence(SuggestedLanguages(langs), langs) && IsSubsequence(OtherLanguages(langs), langs)
    ensures multiset(SuggestedLanguages(langs)) + multiset(OtherLanguages(langs)) == multiset(langs)
  {
    FilterMembers(langs, InSuggestedGroup);
    FilterMembers(langs, InOtherGroup);
    FilterKeepsOrder(langs, InSuggestedGroup);
    FilterKeepsOrder(langs, InOtherGroup);
    FilterPartition(langs, InSuggestedGroup, InOtherGroup);
  }

  /** Filtering four entries tests each in turn. */
  lemma FilterFour(a: Language, b: Language, c: Language, d: Language, keep: Language -> bool)
    ensures Filter([a, b, c, d], keep)
         == (if keep(a) then [a] else []) + (if keep(b) then [b] else [])
          + (if keep(c) then [c] else []) + (if keep(d) then [d] else [])
  {
    assert [d][1..] == [];
    assert Filter([d], keep) == (if keep(d) then [d] else []);
    assert [c, d][1..] == [d];
    assert Filter([c, d], keep) == (if keep(c) then [c] else []) + Filter([d], keep);
    assert [b, c, d][1..] == [c, d];
    assert Filter([b, c, d], keep) == (if keep(b) then [b] else []) + Filter([c, d], keep);
    assert [a, b, c, d][1..] == [b, c, d];
    assert Filter([a, b, c, d], keep) == (if keep(a) then [a] else []) + Filter([b, c, d], keep);
  }

  /** On the real list: English and Hindi are suggested, Chinese and Spanish are the others. */
  lemma AvailableGroups()
    ensures SuggestedLanguages(AvailableLanguages) == [AvailableLanguages[0], AvailableLanguages[1]]
    ensures OtherLanguages(AvailableLanguages) == [AvailableLanguages[2], AvailableLanguages[3]]
  {
    var s := AvailableLanguages;
    AvailableLanguagesAreKnownCodes();
    assert s == [s[0], s[1], s[2], s[3]];
    assert InSuggestedGroup(s[0]) && InSuggestedGroup(s[1]);
    assert s[2].code[0] == 'z' && s[3].code[0] == 'e' && s[3].code[1] == 's';
    assert InOtherGroup(s[2]) && InOtherGroup(s[3]);
    FilterFour(s[0], s[1], s[2], s[3], InSuggestedGroup);
    FilterFour(s[0], s[1], s[2], s[3], InOtherGroup);
  }

  /** `isSelected`: the item of the current language carries the check mark. */
  predicate IsSelected(currentLanguage: string, item: Language)
  {
    currentLanguage == item.code
  }

  /** With distinct codes, at most one item of a list is marked. */
  lemma AtMostOneSelected(langs: seq<Language>, currentLanguage: string, i: int, j: int)
    requires forall a, b :: 0 <= a < b < |langs| ==> langs[a].code != langs[b].code
    requires 0 <= i < |langs| && 0 <= j < |langs|
    requires IsSelected(currentLanguage, langs[i]) && IsSelected(currentLanguage, langs[j])
    ensures i == j
  {
  }

  /**
   * Pressing an item asks the provider for that item's code; since every
   * listed code has a table, the item becomes the one marked, and only it.
   */
  method PressLanguageItem(provider: LanguageProvider, item: Language)
    requires provider.Valid() && item in AvailableLanguages
    modifies provider
    ensures provider.Valid()
    ensures provider.currentLanguage == item.code
    ensures forall l :: l in AvailableLanguages ==> (IsSelected(provider.currentLanguage, l) <==> l == item)
  {
    AvailableLanguagesAreKnownCodes();
    provider.SetLanguage(item.code);
  }
}
