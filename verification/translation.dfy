/**
 * The language provider: one translation table per language, the current
 * language, the guards on changing it, and `t`, which looks up a dotted key.
 */
module Translation {
  import opened Wrappers
  import opened JsString

  /**
   * A value of a parsed locale file: a string, an object (JSON arrays are
   * objects keyed by their indices), or anything else (number, boolean, null).
   */
  datatype Node = Str(s: string) | Obj(fields: map<string, Node>) | Other

  /** The node reached from `node` by following `path` through objects, if every step exists. */
  function Resolve(node: Node, path: seq<string>): Option<Node>
    decreases |path|
  {
    if path == [] then Some(node)
    else match node
      case Obj(m) => if path[0] in m then Resolve(m[path[0]], path[1..]) else None
      case _ => None
  }

  /** Following a path in two pieces is following the first piece, then the second. */
  lemma {:induction false} ResolveAppend(node: Node, p: seq<string>, q: seq<string>)
    ensures Resolve(node, p + q) == if Resolve(node, p).Some? then Resolve(Resolve(node, p).value, q) else None
  {
    if p == [] {
      assert p + q == q;
    } else {
      assert (p + q)[1..] == p[1..] + q;
      if node.Obj? && p[0] in node.fields {
        ResolveAppend(node.fields[p[0]], p[1..], q);
      }
    }
  }

  /** What `t(key)` returns for the table of the current language. */
  function Translate(table: Node, key: string): string
  {
    match Resolve(table, Split(key, '.'))
    case Some(Str(s)) => s
    case _ => key
  }

  /** `t` returns either a string stored somewhere in the table or the key itself. */
  lemma TranslateIsLeafOrKey(table: Node, key: string)
    ensures Translate(table, key) == key
            || exists path :: Resolve(table, path) == Some(Str(Translate(table, key)))
  {
    var path := Split(key, '.');
    if Resolve(table, path).Some? && Resolve(table, path).value.Str? {
      assert Resolve(table, path) == Some(Str(Translate(table, key)));
    }
  }

  /** A key written as segments joined by dots looks up exactly those segments. */
  lemma TranslateSegments(table: Node, segments: seq<string>)
    requires |segments| >= 1
    requires forall i :: 0 <= i < |segments| ==> '.' !in segments[i]
    ensures Translate(table, Join(segments, '.')) ==
      match Resolve(table, segments)
      case Some(Str(s)) => s
      case _ => Join(segments, '.')
  {
    SplitJoin(segments, '.');
  }

  /**
   * `t` gives up with the key as soon as a segment is missing or the value
   * reached is not an object, whatever the later segments are.
   */
  lemma TranslateStopsAtMissingSegment(table: Node, segments: seq<string>, i: nat)
    requires i < |segments|
    requires forall k :: 0 <= k < |segments| ==> '.' !in segments[k]
    requires Resolve(table, segments[..i]).Some?
    requires var n := Resolve(table, segments[..i]).value; !(n.Obj? && segments[i] in n.fields)
    ensures Translate(table, Join(segments, '.')) == Join(segments, '.')
  {
    TranslateSegments(table, segments);
    ResolveAppend(table, segments[..i], segments[i..]);
    assert segments[..i] + segments[i..] == segments;
  }

  /**
   * A key whose segments lead to something other than a string (a nested
   * object, a number, a boolean, null) comes back unchanged.
   */
  lemma TranslateSubtreeIsKey(table: Node, segments: seq<string>)
    requires |segments| >= 1
    requires forall i :: 0 <= i < |segments| ==> '.' !in segments[i]
    requires Resolve(table, segments).Some? && !Resolve(table, segments).value.Str?
    ensures Translate(table, Join(segments, '.')) == Join(segments, '.')
  {
    TranslateSegments(table, segments);
  }

  /** The language codes with a table: `en`, `hi`, `zh`, `es`. */
  const KnownCodes: set<string> := {"en", "hi", "zh", "es"}

  /** An entry of the language list: its code and its display name. */
  datatype Language = Language(code: string, name: string)

  /** `availableLanguages`, in display order. */
  const AvailableLanguages: seq<Language> := [
    Language("en", "English (UK)"),
    Language("hi", "Hindi"),
    Language("zh", "Chinese"),
    Language("es", "Spanish")
  ]

  /** The list names each known language once, in the order en, hi, zh, es. */
  lemma AvailableLanguagesAreKnownCodes()
    ensures |AvailableLanguages| == 4
    ensures AvailableLanguages[0].code == "en" && AvailableLanguages[1].code == "hi"
    ensures AvailableLanguages[2].code == "zh" && AvailableLanguages[3].code == "es"
    ensures forall i :: 0 <= i < |AvailableLanguages| ==> AvailableLanguages[i].code in KnownCodes
    ensures forall c :: c in KnownCodes ==> exists i :: 0 <= i < |AvailableLanguages| && AvailableLanguages[i].code == c
    ensures forall i, j :: 0 <= i < j < |AvailableLanguages| ==> AvailableLanguages[i].code != AvailableLanguages[j].code
  {
    assert AvailableLanguages[0].code == "en";
    assert AvailableLanguages[1].code == "hi";
    assert AvailableLanguages[2].code == "zh";
    assert AvailableLanguages[3].code == "es";
  }

  /** `LanguageProvider`: the tables and the current language. */
  class LanguageProvider {
    const translations: map<string, Node>
    var currentLanguage: string

    /** The current language always has a table, and the tables are the known ones. */
    predicate Valid()
      reads this
    {
      translations.Keys == KnownCodes && currentLanguage in translations
    }

    /** The provider starts in English; the tables are the four parsed locale files. */
    constructor (en: Node, hi: Node, zh: Node, es: Node)
      ensures Valid() && currentLanguage == "en"
      ensures translations == map["en" := en, "hi" := hi, "zh" := zh, "es" := es]
    {
      translations := map["en" := en, "hi" := hi, "zh" := zh, "es" := es];
      currentLanguage := "en";
    }

    /** `loadLanguagePreference`: a stored code is adopted only if it is non-empty and known. */
    method LoadLanguagePreference(stored: Option<string>)
      requires Valid()
      modifies this
      ensures Valid()
      ensures currentLanguage ==
        if stored.Some? && stored.value != "" && stored.value in translations then stored.value
        else old(currentLanguage)
    {
      if stored.Some? && stored.value != "" && stored.value in translations {
        currentLanguage := stored.value;
      }
    }

    /** `handleSetLanguage`: only a known code changes the language. */
    method SetLanguage(code: string)
      requires Valid()
      modifies this
      ensures Valid()
      ensures currentLanguage == if code in translations then code else old(currentLanguage)
    {
      if code in translations {
        currentLanguage := code;
      }
    }

    /**
     * `t`: walk the current table one segment of the key at a time, giving
     * up with the key itself as soon as a step is impossible.
     */
    method T(key: string) returns (r: string)
      requires Valid()
      ensures r == Translate(translations[currentLanguage], key)
    {
      var keys := Split(key, '.');
      var table := translations[currentLanguage];
      var value := table;
      var i := 0;
      while i < |keys|
        invariant 0 <= i <= |keys|
        invariant Resolve(table, keys) == Resolve(value, keys[i..])
      {
        var k := keys[i];
        assert keys[i..][1..] == keys[i + 1..];
        if value.Obj? && k in value.fields {
          value := value.fields[k];
        } else {
          return key;
        }
        i := i + 1;
      }
      if value.Str? {
        return value.s;
      }
      return key;
    }
  }
}
