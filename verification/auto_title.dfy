/**
 * The global route middleware that derives the page title from the path:
 * the last non-empty '/' segment is split on '-', each word is replaced
 * from a fixed word map (matched case-insensitively) or capitalised, and
 * the words are joined with spaces. The `useHead` call is modelled by the
 * head configuration it receives.
 */
module AutoTitle {
  import opened Wrappers
  import opened Strings

  /** The head configuration passed to `useHead`. */
  datatype HeadConfig = HeadConfig(title: Option<string>, titleTemplate: string)

  const SITE_TEMPLATE: string := "coinfo"
  const PAGE_TEMPLATE: string := "%s - coinfo"

  /** `wordMap`: lower-case words and their display forms. */
  const WORD_MAP: map<string, string> := map[
    "api" := "API",
    "websocket" := "WebSocket",
    "json" := "JSON",
    "html" := "HTML",
    "css" := "CSS",
    "js" := "JavaScript",
    "url" := "URL",
    "id" := "ID",
    "uuid" := "UUID",
    "http" := "HTTP",
    "https" := "HTTPS",
    "stats" := "Stats",
    "test" := "Test",
    "home" := "Home",
    "about" := "About"
  ]

  /** The pieces of `parts` that are not empty, as `filter(Boolean)`
      keeps them. */
  function DropEmpty(parts: seq<string>): (r: seq<string>)
    ensures |r| <= |parts|
    ensures forall i :: 0 <= i < |r| ==> r[i] != [] && r[i] in parts
  {
    if parts == [] then []
    else if parts[0] == [] then DropEmpty(parts[1..])
    else [parts[0]] + DropEmpty(parts[1..])
  }

  lemma {:induction false} DropEmptyAppend(a: seq<string>, b: seq<string>)
    ensures DropEmpty(a + b) == DropEmpty(a) + DropEmpty(b)
    decreases |a|
  {
    if a == [] {
      assert a + b == b;
    } else {
      assert (a + b)[0] == a[0];
      assert (a + b)[1..] == a[1..] + b;
      DropEmptyAppend(a[1..], b);
    }
  }

  /** `pathSegments`: the non-empty pieces between slashes. */
  function Segments(path: string): (r: seq<string>)
    ensures |r| <= |Split(path, '/')|
    ensures forall i :: 0 <= i < |r| ==> r[i] != [] && '/' !in r[i]
  {
    DropEmpty(Split(path, '/'))
  }

  /** `lastSegment`: the last non-empty segment, or "" when there is none. */
  function LastSegment(path: string): (r: string)
    ensures r == [] <==> Segments(path) == []
    ensures r != [] ==> '/' !in r
  {
    var segments := Segments(path);
    if segments == [] then "" else segments[|segments| - 1]
  }

  /** `word.charAt(0).toUpperCase() + word.slice(1).toLowerCase()`: the
      first character upper-cased, all others lower-cased. */
  function Capitalize(w: string): (r: string)
    ensures |r| == |w|
    ensures w != [] ==> r[0] == UpperChar(w[0])
    ensures forall i :: 1 <= i < |w| ==> r[i] == LowerChar(w[i])
  {
    if w == [] then "" else [UpperChar(w[0])] + ToLower(w[1..])
  }

  /** The display form of one word: its mapped value when its lower-case
      form is a key of `wordMap`, else its capitalised form. */
  function TransformWord(w: string): (r: string)
    ensures ToLower(w) in WORD_MAP ==> r == WORD_MAP[ToLower(w)]
    ensures ToLower(w) !in WORD_MAP ==> r == Capitalize(w)
  {
    var lower := ToLower(w);
    if lower in WORD_MAP then WORD_MAP[lower] else Capitalize(w)
  }

  /** `TransformWord` applied to every word. */
  function TransformAll(words: seq<string>): (r: seq<string>)
    ensures |r| == |words|
    ensures forall i :: 0 <= i < |words| ==> r[i] == TransformWord(words[i])
  {
    if words == [] then [] else [TransformWord(words[0])] + TransformAll(words[1..])
  }

  /** The title of one segment: one display word per '-'-separated word,
      joined by single spaces; SegmentTitleWords splits it back. */
  function SegmentTitle(segment: string): (r: string)
    ensures '-' !in segment ==> r == TransformWord(segment)
  {
    var pieces := Split(segment, '-');
    JoinSplit(segment, '-');
    Join(TransformAll(pieces), " ")
  }

  /** The display words of a segment without spaces contain no space. */
  lemma TransformWordNoSpace(w: string)
    requires ' ' !in w
    ensures ' ' !in TransformWord(w)
  {
    if ToLower(w) in WORD_MAP {
      MappedValuesHaveNoSpace(ToLower(w));
    } else {
      var r := Capitalize(w);
      forall i | 0 <= i < |r| ensures r[i] != ' ' {
        assert w[i] != ' ';
      }
    }
  }

  /** No display form in the word map contains a space. */
  lemma MappedValuesHaveNoSpace(k: string)
    requires k in WORD_MAP
    ensures ' ' !in WORD_MAP[k]
  {
  }

  /** Splitting a title on spaces gives back one display word per
      '-'-separated word of the segment, in order, when the segment itself
      has no space. */
  lemma SegmentTitleWords(segment: string)
    requires ' ' !in segment
    ensures Split(SegmentTitle(segment), ' ') == TransformAll(Split(segment, '-'))
  {
    var pieces := Split(segment, '-');
    var words := TransformAll(pieces);
    SplitChars(segment, '-');
    forall i | 0 <= i < |words| ensures ' ' !in words[i] {
      TransformWordNoSpace(pieces[i]);
    }
    SplitJoin(words, ' ');
  }

  /** The head configuration the middleware sets for `path`. */
  function AutoTitle(path: string): (r: HeadConfig)
    ensures r.title.None? <==> Segments(path) == []
    ensures r.title.None? ==> r.titleTemplate == SITE_TEMPLATE
    ensures r.title.Some? ==>
      r.titleTemplate == PAGE_TEMPLATE && r.title.value == SegmentTitle(LastSegment(path))
  {
    var last := LastSegment(path);
    if last == [] then HeadConfig(None, SITE_TEMPLATE)
    else HeadConfig(Some(SegmentTitle(last)), PAGE_TEMPLATE)
  }

  /** The site root has no segment: no title, the bare site template. */
  lemma RootHasSiteTitle()
    ensures AutoTitle("/") == HeadConfig(None, SITE_TEMPLATE)
    ensures AutoTitle("") == HeadConfig(None, SITE_TEMPLATE)
  {
    assert Split("/", '/') == ["", ""];
  }

  /** A trailing slash changes nothing. */
  lemma {:induction false} TrailingSlashIgnored(path: string)
    ensures AutoTitle(path + "/") == AutoTitle(path)
  {
    assert path + "/" == path + ['/'] + "";
    SplitAround(path, "", '/');
    assert Split("", '/') == [""];
    DropEmptyAppend(Split(path, '/'), [""]);
    assert DropEmpty([""]) == [];
    assert Segments(path) + [] == Segments(path);
  }

  /** Only the last segment matters: whatever precedes it, a path ending in
      the segment `s` gets the same head as `/s`. */
  lemma {:induction false} OnlyLastSegmentMatters(prefix: string, s: string)
    requires s != [] && '/' !in s
    ensures LastSegment(prefix + "/" + s) == s
    ensures AutoTitle(prefix + "/" + s) == AutoTitle("/" + s)
  {
    SplitNoSep(s, '/');
    assert DropEmpty([s]) == [s];
    SplitAround(prefix, s, '/');
    assert prefix + "/" + s == prefix + ['/'] + s;
    DropEmptyAppend(Split(prefix, '/'), [s]);
    SplitAround("", s, '/');
    assert "/" + s == "" + ['/'] + s;
    DropEmptyAppend(Split("", '/'), [s]);
  }

  /** Every value of the word map other than "JavaScript" lower-cases back
      to its own key. */
  lemma MappedValuesLowerToKey(k: string)
    requires k in WORD_MAP && k != "js"
    ensures ToLower(WORD_MAP[k]) == k
  {
    if k == "api" { LowerValuesA(); }
    else if k == "websocket" { LowerValuesA(); }
    else if k == "json" { LowerValuesA(); }
    else if k == "html" { LowerValuesB(); }
    else if k == "css" { LowerValuesB(); }
    else if k == "url" { LowerValuesB(); }
    else if k == "id" { LowerValuesC(); }
    else if k == "uuid" { LowerValuesC(); }
    else if k == "http" { LowerValuesC(); }
    else if k == "https" { LowerValuesD(); }
    else if k == "stats" { LowerValuesD(); }
    else if k == "test" { LowerValuesD(); }
    else if k == "home" { LowerValuesE(); }
    else { assert k == "about"; LowerValuesE(); }
  }

  lemma LowerValuesA()
    ensures ToLower(WORD_MAP["api"]) == "api"
    ensures ToLower(WORD_MAP["websocket"]) == "websocket"
    ensures ToLower(WORD_MAP["json"]) == "json"
  {
  }

  lemma LowerValuesB()
    ensures ToLower(WORD_MAP["html"]) == "html"
    ensures ToLower(WORD_MAP["css"]) == "css"
    ensures ToLower(WORD_MAP["url"]) == "url"
  {
  }

  lemma LowerValuesC()
    ensures ToLower(WORD_MAP["id"]) == "id"
    ensures ToLower(WORD_MAP["uuid"]) == "uuid"
    ensures ToLower(WORD_MAP["http"]) == "http"
  {
  }

  lemma LowerValuesD()
    ensures ToLower(WORD_MAP["https"]) == "https"
    ensures ToLower(WORD_MAP["stats"]) == "stats"
    ensures ToLower(WORD_MAP["test"]) == "test"
  {
  }

  lemma LowerValuesE()
    ensures ToLower(WORD_MAP["home"]) == "home"
    ensures ToLower(WORD_MAP["about"]) == "about"
  {
  }

  /** The word transformation is idempotent, with one exception: "js" maps to
      "JavaScript", whose lower-case form is not a key, so it capitalises
      to "Javascript". */
  lemma {:induction false} TransformWordIdempotent(w: string)
    requires ToLower(w) != "js"
    ensures TransformWord(TransformWord(w)) == TransformWord(w)
  {
    var lower := ToLower(w);
    var once := TransformWord(w);
    if lower in WORD_MAP {
      MappedValuesLowerToKey(lower);
    } else if w != [] {
      assert ToLower(once) == lower by {
        assert forall i :: 0 <= i < |w| ==> ToLower(once)[i] == LowerChar(w[i]);
      }
      assert Capitalize(once) == once;
    }
  }

  /** The exception: applying the transformation twice to "js" does not
      give "JavaScript" back. */
  lemma JsIsNotIdempotent()
    ensures TransformWord("js") == "JavaScript"
    ensures TransformWord(TransformWord("js")) == "Javascript"
  {
    assert ToLower("js") == "js";
    JavaScriptCapitalises();
  }

  lemma JavaScriptCapitalises()
    ensures TransformWord("JavaScript") == "Javascript"
  {
    JavaScriptUnmapped();
    JavaScriptCapitalised();
  }

  /** `JavaScript` in lower case is not a key of the word map. */
  lemma JavaScriptUnmapped()
    ensures ToLower("JavaScript") == "javascript"
    ensures "javascript" !in WORD_MAP
  {
  }

  /** Capitalising `JavaScript` lowers everything after the first letter. */
  lemma JavaScriptCapitalised()
    ensures Capitalize("JavaScript") == "Javascript"
  {
    assert "JavaScript"[1..] == "avaScript";
    assert ToLower("avaScript") == "avascript";
  }

  /** A word-map key is recognised in any letter case. */
  lemma {:induction false} MappedInAnyCase(w: string)
    requires ToLower(w) in WORD_MAP
    ensures TransformWord(w) == WORD_MAP[ToLower(w)]
    ensures TransformWord(ToUpper(w)) == WORD_MAP[ToLower(w)]
  {
    LowerAbsorbsCase(w);
  }

  // ---------------------------------------------------------------------
  // The lookup as written: `wordMap[lowerWord]` on a plain object literal.

  /** The text a word takes when `wordMap[lowerWord]` finds an inherited
      property of `Object.prototype` instead of an own key: `constructor`
      yields the `Object` function, whose string form (here V8's) ends up in
      the title; `__proto__` yields `Object.prototype`, whose string form is
      "[object Object]". These are the only all-lower-case inherited keys. */
  const INHERITED: map<string, string> := map[
    "constructor" := "function Object() { [native code] }",
    "__proto__" := "[object Object]"
  ]

  /** The word transformation as written: inherited keys also count as
      present. */
  function TransformWordAsWritten(w: string): (r: string)
    ensures ToLower(w) !in INHERITED ==> r == TransformWord(w)
  {
    var lower := ToLower(w);
    if lower in WORD_MAP then WORD_MAP[lower]
    else if lower in INHERITED then INHERITED[lower]
    else Capitalize(w)
  }

  /** The head configuration as written. */
  function AutoTitleAsWritten(path: string): (r: HeadConfig)
    ensures r.titleTemplate == AutoTitle(path).titleTemplate
  {
    var last := LastSegment(path);
    if last == [] then HeadConfig(None, SITE_TEMPLATE)
    else HeadConfig(Some(Join(MapAsWritten(Split(last, '-')), " ")), PAGE_TEMPLATE)
  }

  function MapAsWritten(words: seq<string>): (r: seq<string>)
    ensures |r| == |words|
    ensures forall i :: 0 <= i < |words| ==> r[i] == TransformWordAsWritten(words[i])
  {
    if words == [] then [] else [TransformWordAsWritten(words[0])] + MapAsWritten(words[1..])
  }

  /** Away from the inherited keys the lookup as written is harmless: when
      no word of the last segment lower-cases to one, the head is the one the
      own-key lookup gives. */
  lemma AsWrittenAgrees(path: string)
    requires forall i :: 0 <= i < |Split(LastSegment(path), '-')| ==>
      ToLower(Split(LastSegment(path), '-')[i]) !in INHERITED
    ensures AutoTitleAsWritten(path) == AutoTitle(path)
  {
    var words := Split(LastSegment(path), '-');
    assert MapAsWritten(words) == TransformAll(words);
  }

  /** A path of one segment without '-' gets that word's display form,
      both as written and with the own-key lookup. */
  lemma {:induction false} SingleWordTitle(w: string)
    requires w != [] && '/' !in w && '-' !in w
    ensures AutoTitle("/" + w).title == Some(TransformWord(w))
    ensures AutoTitleAsWritten("/" + w).title == Some(TransformWordAsWritten(w))
  {
    OnlyLastSegmentMatters("", w);
    assert "" + "/" + w == "/" + w;
    SplitNoSep(w, '-');
  }

  /** The word "__proto__" becomes "[object Object]" as written, where the
      own-key lookup leaves it as it is. */
  lemma ProtoWordAsWritten()
    ensures TransformWordAsWritten("__proto__") == "[object Object]"
    ensures TransformWord("__proto__") == "__proto__"
  {
    assert ToLower("__proto__") == "__proto__";
    assert "__proto__" !in WORD_MAP;
    assert Capitalize("__proto__") == "__proto__";
  }

  /** The word "constructor" becomes the `Object` function's source text as
      written, where the own-key lookup gives "Constructor". */
  lemma ConstructorWordAsWritten()
    ensures TransformWordAsWritten("constructor") == "function Object() { [native code] }"
    ensures TransformWord("constructor") == "Constructor"
  {
    assert ToLower("constructor") == "constructor";
    assert "constructor" !in WORD_MAP;
    assert "constructor"[1..] == "onstructor";
    assert ToLower("onstructor") == "onstructor";
    assert Capitalize("constructor") == "Constructor";
  }

  /** The paths "/__proto__" and "/constructor" get those words as their
      whole titles. */
  lemma InheritedKeyPathsAsWritten(path: string)
    requires path == "/__proto__" || path == "/constructor"
    ensures path == "/__proto__" ==>
      AutoTitleAsWritten(path).title == Some("[object Object]") &&
      AutoTitle(path).title == Some("__proto__")
    ensures path == "/constructor" ==>
      AutoTitleAsWritten(path).title == Some("function Object() { [native code] }") &&
      AutoTitle(path).title == Some("Constructor")
  {
    var w := path[1..];
    assert path == "/" + w;
    SingleWordTitle(w);
    ProtoWordAsWritten();
    ConstructorWordAsWritten();
  }
}
