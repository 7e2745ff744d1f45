/** The introduction screen of components/IntroScreen.tsx: the site's name shown to the
    participant, the spoken script (a project's own script with its placeholders filled in,
    or the default welcome), and the guard that starts the introduction once per mount. */
module IntroScreen {
  import opened Common
  import opened Url

  const UrlPlaceholder := "{url}"
  const DomainPlaceholder := "{domain}"

  /** The default welcome, before and after the site's name. */
  const DefaultHead: string := @"Hello! Welcome to AI usability testing. You're about to test "
  const DefaultTail: string := @".

I'll guide you through this process. You'll be able to interact with the website freely, and I'll ask you some questions along the way about your experience.

You can speak to me naturally, and I'll listen and respond. Just explore the site as you normally would, and share your thoughts when I ask.

Ready to begin?"

  /** `getDomain`: the parsed hostname without its first `www.`, or the input itself when it
      does not parse. */
  function GetDomain(url: string, parse: Parser): (d: string)
    ensures parse(url).None? ==> d == url
    ensures parse(url).Some? ==> d == ReplaceFirst(parse(url).value.hostname, "www.", "")
  {
    match parse(url)
    case None => url
    case Some(u) => ReplaceFirst(u.hostname, "www.", "")
  }

  function DefaultScript(domain: string): string
  {
    DefaultHead + domain + DefaultTail
  }

  /** `introScript(url, customScript)`: a non-empty custom script has every `{url}` replaced
      by the URL and then every `{domain}` by the site's name; otherwise the default welcome
      is used. */
  function IntroScript(url: string, customScript: Option<string>, parse: Parser): string
  {
    var domain := GetDomain(url, parse);
    if Truthy(customScript) then ReplaceAll(ReplaceAll(customScript.value, UrlPlaceholder, url), DomainPlaceholder, domain)
    else DefaultScript(domain)
  }

  /** A custom script without placeholders is spoken as written. */
  lemma PlainScriptUnchanged(url: string, customScript: string, parse: Parser)
    requires customScript != ""
    requires !Contains(customScript, UrlPlaceholder) && !Contains(customScript, DomainPlaceholder)
    ensures IntroScript(url, Some(customScript), parse) == customScript
  {
    ReplaceAllAbsent(customScript, UrlPlaceholder, url);
    ReplaceAllAbsent(customScript, DomainPlaceholder, GetDomain(url, parse));
  }

  /** Without a custom script the welcome names the site right after its fixed opening. */
  lemma DefaultScriptNamesSite(url: string, customScript: Option<string>, parse: Parser)
    requires !Truthy(customScript)
    ensures IntroScript(url, customScript, parse) == DefaultScript(GetDomain(url, parse))
    ensures OccursAt(IntroScript(url, customScript, parse), GetDomain(url, parse), |DefaultHead|)
    ensures StartsWith(IntroScript(url, customScript, parse), DefaultHead)
  {
    var d := GetDomain(url, parse);
    OccursAfter(DefaultHead, d, DefaultTail);
    assert (DefaultHead + d + DefaultTail)[|DefaultHead|..|DefaultHead| + |d|] == d;
    assert (DefaultHead + d + DefaultTail)[..|DefaultHead|] == DefaultHead;
  }

  /** A custom script seen as plain text interleaved with placeholders. */
  datatype ScriptPart = Text(text: string) | UrlField | DomainField

  /** The text of a part in a script as written. */
  function Written(part: ScriptPart): string
  {
    match part
    case Text(t) => t
    case UrlField => UrlPlaceholder
    case DomainField => DomainPlaceholder
  }

  /** The text of a part once the placeholders are filled with `url` and `domain`. */
  function Filled(part: ScriptPart, url: string, domain: string): string
  {
    match part
    case Text(t) => t
    case UrlField => url
    case DomainField => domain
  }

  /** The script as written, part after part. */
  function Template(parts: seq<ScriptPart>): string
  {
    if |parts| == 0 then "" else Written(parts[0]) + Template(parts[1..])
  }

  /** The script with every placeholder filled, part after part. */
  function FilledScript(parts: seq<ScriptPart>, url: string, domain: string): string
  {
    if |parts| == 0 then "" else Filled(parts[0], url, domain) + FilledScript(parts[1..], url, domain)
  }

  /** The plain text around the placeholders has no opening brace. */
  predicate BraceFree(parts: seq<ScriptPart>)
  {
    forall i :: 0 <= i < |parts| && parts[i].Text? ==> '{' !in parts[i].text
  }

  /** The script after the first pass: the URL fields filled, the domain fields still written. */
  function UrlFilled(parts: seq<ScriptPart>, url: string): string
  {
    if |parts| == 0 then ""
    else (if parts[0].DomainField? then DomainPlaceholder else Filled(parts[0], url, "")) + UrlFilled(parts[1..], url)
  }

  lemma BraceFreeTail(parts: seq<ScriptPart>)
    requires |parts| > 0 && BraceFree(parts)
    ensures BraceFree(parts[1..])
  {
    forall i | 0 <= i < |parts[1..]| && parts[1..][i].Text? ensures '{' !in parts[1..][i].text {
      assert parts[1..][i] == parts[i + 1];
    }
  }

  /** The first pass copies a written `{domain}` through. */
  lemma UrlPassSkipsDomain(rest: string, url: string)
    ensures ReplaceAll(DomainPlaceholder + rest, UrlPlaceholder, url) == DomainPlaceholder + ReplaceAll(rest, UrlPlaceholder, url)
  {
    var w := DomainPlaceholder + rest;
    assert w[..|UrlPlaceholder|] != UrlPlaceholder by { assert w[1] == 'd'; }
    assert w[1..] == "domain}" + rest;
    ReplaceAllSkips("domain}", rest, UrlPlaceholder, url);
    assert [w[0]] + "domain}" == DomainPlaceholder;
  }

  /** The first pass fills exactly the URL fields. */
  lemma {:induction false} UrlPass(parts: seq<ScriptPart>, url: string)
    requires BraceFree(parts)
    ensures ReplaceAll(Template(parts), UrlPlaceholder, url) == UrlFilled(parts, url)
  {
    if |parts| > 0 {
      var rest := Template(parts[1..]);
      BraceFreeTail(parts);
      UrlPass(parts[1..], url);
      match parts[0]
      case Text(t) =>
        assert parts[0] == parts[0];
        ReplaceAllSkips(t, rest, UrlPlaceholder, url);
      case UrlField =>
        ReplaceAllLeading(UrlPlaceholder, rest, url);
      case DomainField =>
        UrlPassSkipsDomain(rest, url);
    }
  }

  /** The second pass fills exactly the domain fields, whatever the domain holds. */
  lemma {:induction false} DomainPass(parts: seq<ScriptPart>, url: string, domain: string)
    requires BraceFree(parts) && '{' !in url
    ensures ReplaceAll(UrlFilled(parts, url), DomainPlaceholder, domain) == FilledScript(parts, url, domain)
  {
    if |parts| > 0 {
      var rest := UrlFilled(parts[1..], url);
      BraceFreeTail(parts);
      DomainPass(parts[1..], url, domain);
      match parts[0]
      case Text(t) =>
        assert parts[0] == parts[0];
        ReplaceAllSkips(t, rest, DomainPlaceholder, domain);
      case UrlField =>
        ReplaceAllSkips(url, rest, DomainPlaceholder, domain);
      case DomainField =>
        ReplaceAllLeading(DomainPlaceholder, rest, domain);
    }
  }

  /** A custom script of brace-free text and placeholders is spoken with every `{url}`
      replaced by the URL and every `{domain}` by the site's name, when the URL itself has no
      brace. */
  lemma IntroScriptFillsPlaceholders(url: string, parts: seq<ScriptPart>, parse: Parser)
    requires BraceFree(parts) && '{' !in url && Template(parts) != ""
    ensures IntroScript(url, Some(Template(parts)), parse) == FilledScript(parts, url, GetDomain(url, parse))
  {
    UrlPass(parts, url);
    DomainPass(parts, url, GetDomain(url, parse));
  }

  /** Each pattern is replaced in one left-to-right pass, not until none is left: a site
      name without a `{domain}` can still complete one with the text that follows it. Here
      the URL `{` does not parse, so it is its own site name, and the script is
      `{domain}domain}`. */
  lemma SinglePass(url: string, rest: string, parse: Parser)
    requires url == "{" && rest == "domain}" && parse(url).None?
    ensures !Contains(url, DomainPlaceholder)
    ensures IntroScript(url, Some(DomainPlaceholder + rest), parse) == DomainPlaceholder
  {
    var script := DomainPlaceholder + rest;
    assert GetDomain(url, parse) == url;
    assert script[..|UrlPlaceholder|] != UrlPlaceholder by { assert script[1] == 'd'; }
    var tail := script[1..];
    assert tail == rest + rest && tail + "" == tail;
    ReplaceAllSkips(tail, "", UrlPlaceholder, url);
    assert ReplaceAll(script, UrlPlaceholder, url) == [script[0]] + ReplaceAll(tail, UrlPlaceholder, url);
    assert [script[0]] + tail == script;
    assert script[..|DomainPlaceholder|] == DomainPlaceholder && script[|DomainPlaceholder|..] == rest;
    assert rest + "" == rest;
    ReplaceAllSkips(rest, "", DomainPlaceholder, url);
    assert url + rest == DomainPlaceholder;
  }

  /** The screen's state: `hasPlayedRef`, `isSpeaking` and `hasPlayedIntro`. */
  class Player {
    var hasPlayed: bool
    var isSpeaking: bool
    var hasPlayedIntro: bool

    /** Nothing is spoken or finished before the guard has let the introduction start. */
    ghost predicate Valid()
      reads this
    {
      (isSpeaking || hasPlayedIntro) ==> hasPlayed
    }

    constructor()
      ensures Valid() && !hasPlayed && !isSpeaking && !hasPlayedIntro
    {
      hasPlayed, isSpeaking, hasPlayedIntro := false, false, false;
    }

    /** The continue button is shown. */
    predicate ShowsContinue()
      reads this
    {
      hasPlayedIntro
    }

    /** The mount effect: the first run marks the introduction played, starts speaking and
        returns the script handed to the speech service; any later run returns nothing and
        changes nothing. */
    method RunEffect(url: string, customScript: Option<string>, parse: Parser) returns (script: Option<string>)
      requires Valid()
      modifies this
      ensures Valid() && hasPlayed
      ensures old(hasPlayed) ==> script.None? && isSpeaking == old(isSpeaking) && hasPlayedIntro == old(hasPlayedIntro)
      ensures !old(hasPlayed) ==> script == Some(IntroScript(url, customScript, parse)) && isSpeaking
                                  && hasPlayedIntro == old(hasPlayedIntro)
    {
      if hasPlayed {
        return None;
      }
      hasPlayed := true;
      script := Some(IntroScript(url, customScript, parse));
      isSpeaking := true;
    }

    /** The completion callback and the failure handler do the same thing: stop speaking and
        show the continue button. */
    method PlaybackFinished()
      requires Valid() && hasPlayed
      modifies this
      ensures Valid() && !isSpeaking && hasPlayedIntro && ShowsContinue() && hasPlayed
    {
      isSpeaking := false;
      hasPlayedIntro := true;
    }

    /** Mounting, running the effect twice (as strict mode does) and finishing playback: one
        script is spoken, and the continue button shows only at the end. */
    static method MountTwice(url: string, customScript: Option<string>, parse: Parser)
      returns (first: Option<string>, second: Option<string>, shownBefore: bool, shownAfter: bool)
      ensures first == Some(IntroScript(url, customScript, parse)) && second.None?
      ensures !shownBefore && shownAfter
    {
      var p := new Player();
      first := p.RunEffect(url, customScript, parse);
      second := p.RunEffect(url, customScript, parse);
      shownBefore := p.ShowsContinue();
      p.PlaybackFinished();
      shownAfter := p.ShowsContinue();
    }
  }
}
