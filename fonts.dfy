/** Loading a web font family before text is drawn: when a fetch is needed, the stylesheet
    URL it uses, and the process-wide record of families that finished loading. */
module Fonts {

  /** The generic CSS families, which never need fetching. */
  const GenericFamilies: set<string> := {"sans-serif", "serif", "monospace", "cursive"}

  const UrlPrefix := "https://fonts.googleapis.com/css2?family="
  const UrlSuffix := ":wght@400;700&display=swap"

  /** `family.replace(/ /g, '+')`. */
  function ReplaceSpaces(family: string): (name: string)
    ensures |name| == |family|
    ensures forall i :: 0 <= i < |family| ==> name[i] == if family[i] == ' ' then '+' else family[i]
  {
    if family == [] then ""
    else [if family[0] == ' ' then '+' else family[0]] + ReplaceSpaces(family[1..])
  }

  /** The stylesheet URL requested for a family. */
  function FontUrl(family: string): string {
    UrlPrefix + ReplaceSpaces(family) + UrlSuffix
  }

  /** The URL carries the family, character by character, with every space written as `+`,
      and contains no space at all. */
  lemma FontUrlEncodesFamily(family: string)
    ensures |FontUrl(family)| == |UrlPrefix| + |family| + |UrlSuffix|
    ensures forall i :: 0 <= i < |family| ==>
      FontUrl(family)[|UrlPrefix| + i] == if family[i] == ' ' then '+' else family[i]
    ensures ' ' !in FontUrl(family)
  {
    var url := FontUrl(family);
    forall i | 0 <= i < |family|
      ensures url[|UrlPrefix| + i] == ReplaceSpaces(family)[i]
    {
    }
    assert ' ' !in UrlPrefix && ' ' !in UrlSuffix;
    assert ' ' !in ReplaceSpaces(family);
  }

  /** Two families share a stylesheet URL exactly when they agree once spaces become `+`
      (so "Open Sans" and "Open+Sans" share one link). */
  lemma FontUrlSharedIff(a: string, b: string)
    ensures FontUrl(a) == FontUrl(b) <==> ReplaceSpaces(a) == ReplaceSpaces(b)
  {
    if FontUrl(a) == FontUrl(b) {
      var ra, rb := ReplaceSpaces(a), ReplaceSpaces(b);
      assert |ra| == |rb|;
      assert ra == FontUrl(a)[|UrlPrefix|..|UrlPrefix| + |ra|];
      assert rb == FontUrl(b)[|UrlPrefix|..|UrlPrefix| + |rb|];
    }
  }

  /** The selector that looks for an existing stylesheet link. */
  function LinkSelector(url: string): string {
    "link[href=\"" + url + "\"]"
  }

  /** A character that can stand inside a quoted CSS string as it is: not a quote, backslash,
      line break, form feed or NUL. */
  predicate PlainChar(c: char) {
    c != '"' && c != '\\' && c != '\n' && c != '\r' && c != '\U{C}' && c != '\U{0}'
  }

  /** A family that can stand inside the selector's quoted string as it is. For such a family
      the browser parses the selector, which matches exactly the links whose href is the URL. */
  predicate PlainFamily(family: string) {
    forall i :: 0 <= i < |family| ==> PlainChar(family[i])
  }

  /** The fixed start of every font URL is plain. */
  lemma PrefixPlain()
    ensures forall i :: 0 <= i < |UrlPrefix| ==> PlainChar(UrlPrefix[i])
  {
  }

  /** So is its fixed end. */
  lemma SuffixPlain()
    ensures forall i :: 0 <= i < |UrlSuffix| ==> PlainChar(UrlSuffix[i])
  {
  }

  /** The URL of a plain family is itself plain: it has no character that could end or
      escape the selector's quoted string. */
  lemma PlainFamilyUrl(family: string)
    requires PlainFamily(family)
    ensures forall i :: 0 <= i < |FontUrl(family)| ==> PlainChar(FontUrl(family)[i])
  {
    var url, name := FontUrl(family), ReplaceSpaces(family);
    PrefixPlain();
    SuffixPlain();
    assert url == UrlPrefix + name + UrlSuffix;
    forall i | 0 <= i < |url|
      ensures PlainChar(url[i])
    {
      if i < |UrlPrefix| {
        assert url[i] == UrlPrefix[i];
      } else if i < |UrlPrefix| + |name| {
        assert url[i] == name[i - |UrlPrefix|];
      } else {
        assert url[i] == UrlSuffix[i - |UrlPrefix| - |name|];
      }
    }
  }

  /** What a request for a family does. */
  datatype LoadStep =
    | Skip            // no family, a generic family, or one already loaded: resolved at once
    | InvalidSelector(selector: string)  // `querySelector` throws: nothing is appended
    | AlreadyLinked   // a link with this URL is already in the document: resolved at once
    | Fetch(url: string)  // a stylesheet link is appended; its load or error settles the request

  /** The decision `loadGoogleFont` takes, given the loaded families, the document's link
      hrefs and whether the browser parses the family's link selector. */
  function Decide(family: string, loaded: set<string>, links: set<string>, selectorParses: bool): (step: LoadStep)
    ensures step == Skip <==> family == "" || family in GenericFamilies || family in loaded
    ensures step.InvalidSelector? <==>
      family != "" && family !in GenericFamilies && family !in loaded && !selectorParses
    ensures step.InvalidSelector? ==> step.selector == LinkSelector(FontUrl(family))
    ensures step.Fetch? <==>
      family != "" && family !in GenericFamilies && family !in loaded && selectorParses
      && FontUrl(family) !in links
    ensures step.Fetch? ==> step.url == FontUrl(family)
  {
    if family == "" || family in GenericFamilies || family in loaded then Skip
    else if !selectorParses then InvalidSelector(LinkSelector(FontUrl(family)))
    else if FontUrl(family) in links then AlreadyLinked
    else Fetch(FontUrl(family))
  }

  /** How a fetched stylesheet link settles. */
  datatype FontEvent = LinkLoaded(family: string) | LinkFailed(family: string)

  /** The loaded-family set after one settled link: only a load adds, nothing removes. */
  function CacheAfter(loaded: set<string>, event: FontEvent): (after: set<string>)
    ensures loaded <= after
    ensures event.LinkFailed? ==> after == loaded
  {
    match event
    case LinkLoaded(f) => loaded + {f}
    case LinkFailed(_) => loaded
  }

  /** The loaded-family set after a sequence of settled links. */
  function CacheAfterAll(loaded: set<string>, events: seq<FontEvent>): set<string>
    decreases |events|
  {
    if events == [] then loaded else CacheAfterAll(CacheAfter(loaded, events[0]), events[1..])
  }

  /** A family is loaded after a run of events exactly when it was loaded before or one of
      the events is a successful load of it: failures never add and nothing is evicted. */
  lemma {:induction false} CacheAfterAllSpec(loaded: set<string>, events: seq<FontEvent>, f: string)
    ensures f in CacheAfterAll(loaded, events) <==> f in loaded || LinkLoaded(f) in events
    decreases |events|
  {
    if events != [] {
      CacheAfterAllSpec(CacheAfter(loaded, events[0]), events[1..], f);
      assert events == [events[0]] + events[1..];
    }
  }

  /** The module-level font state: families that finished loading, and the hrefs of the
      stylesheet links appended to the document head. */
  class FontLoader {
    var loaded: set<string>
    var links: set<string>

    /** A family is only ever recorded after its own stylesheet link was appended. */
    ghost predicate Valid()
      reads this
    {
      forall f :: f in loaded ==> FontUrl(f) in links
    }

    constructor ()
      ensures loaded == {} && links == {} && Valid()
    {
      loaded, links := {}, {};
    }

    /** Starts loading a family: decides, and appends a link only when a fetch is needed.
        `selectorParses` is whether the browser accepts the link selector, which it always
        does for a plain family. */
    method Request(family: string, selectorParses: bool) returns (step: LoadStep)
      requires Valid()
      requires PlainFamily(family) ==> selectorParses
      modifies this`links
      ensures Valid()
      ensures step == Decide(family, old(loaded), old(links), selectorParses)
      ensures links == if step.Fetch? then old(links) + {step.url} else old(links)
    {
      if family == "" || family in GenericFamilies || family in loaded {
        return Skip;
      }
      var url := FontUrl(family);
      if !selectorParses {
        return InvalidSelector(LinkSelector(url));
      }
      if url in links {
        return AlreadyLinked;
      }
      links := links + {url};
      step := Fetch(url);
    }

    /** The link's `onload`: the family is recorded as loaded. */
    method OnLoad(family: string)
      requires Valid() && FontUrl(family) in links
      modifies this`loaded
      ensures Valid()
      ensures loaded == CacheAfter(old(loaded), LinkLoaded(family))
    {
      loaded := loaded + {family};
    }

    /** The link's `onerror`: the request is rejected with this message; nothing is recorded. */
    method OnError(family: string) returns (message: string)
      ensures message == "Failed to load font: " + family
      ensures loaded == old(loaded)
    {
      message := "Failed to load font: " + family;
    }
  }

  /** After a link for a family has been appended, asking for it again never fetches,
      whether or not the first load succeeded. */
  lemma NoRefetchAfterLink(family: string, loaded: set<string>, links: set<string>, selectorParses: bool)
    ensures !Decide(family, loaded, links + {FontUrl(family)}, selectorParses).Fetch?
  {
  }
}
