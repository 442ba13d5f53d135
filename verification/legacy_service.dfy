/** The earlier link service (internal/service/linksService.go): lookup of a full URL, link
    creation with an unbounded search for a free shortcut, and short-URL building.

    NewLinksService constructs it with the gorm-backed repository of
    internal/repository/shortenedLink.go. That repository's `Create(link) error` matches the
    service's call, but its lookup is `GetByShortUrl`, which answers `(nil, nil)` when nothing is
    found, while the service calls `GetByShortcut(shortcut) (link, error)`. The map-backed store
    of internal/repository/shortened_link.go, which declares the same type name in the same
    package, has a `GetByShortcut` answering `(link, ok bool)` and a `Create` returning nothing,
    so it does not match either. The service is therefore modelled against the answers of an
    abstract repository with the signature the service uses. Randomness is a parameter as in the
    current service. */
module LegacyLinksService {
  import opened Wrappers
  import opened Errors
  import opened Model
  import opened Shortcuts
  import LinksService

  /** What the repository's GetByShortcut returns: a link pointer (None is nil) and an error. */
  datatype LookupAnswer = LookupAnswer(link: Option<Link>, err: Option<Error>)

  /** The repository's answers: lookup n (counted from 0 within one operation) of a shortcut,
      and the error Create returns for a link. */
  datatype LegacyRepository = LegacyRepository(
    getByShortcut: (nat, string) -> LookupAnswer,
    create: Link -> Option<Error>)

  /** The service with the global configuration it reads (ShortLinksLength,
      ShortLinksURLPrefix) and the library functions url.ParseRequestURI and url.JoinPath. */
  datatype LegacyService = LegacyService(
    shortLinksLength: nat,
    shortLinksURLPrefix: string,
    repository: LegacyRepository,
    parseRequestURI: string -> Option<LinksService.ParsedURL>,
    joinPath: (string, string) -> Result<string>)

  const LinkNotFound := Message("specified link not found")

  /** GetFullURLFromShort: without a link the fixed "not found" error; with one, its URL
      together with whatever error the repository returned. */
  function GetFullURLFromShort(answer: LookupAnswer): (r: (string, Option<Error>))
    ensures answer.link.None? ==> r.0 == "" && r.1 == Some(LinkNotFound)
    ensures answer.link.Some? ==> r.0 == answer.link.value.FullURL && r.1 == answer.err
  {
    if answer.link.None? then ("", Some(LinkNotFound)) else (answer.link.value.FullURL, answer.err)
  }

  /** Against a repository that returns a link exactly when it returns no error, the legacy
      lookup agrees with the current service's on success, and on failure replaces the
      repository's error by the fixed "not found" error. */
  lemma GetFullURLAgreesWithCurrentService(answer: LookupAnswer)
    requires answer.link.Some? <==> answer.err.None?
    ensures var current := LinksService.GetFullURLFromShort(
              if answer.link.Some? then Ok(answer.link.value) else Err(answer.err.value));
            var legacy := GetFullURLFromShort(answer);
            && (current.Ok? <==> legacy.1.None?)
            && (current.Ok? ==> legacy.0 == current.value)
            && (current.Err? ==> legacy == ("", Some(LinkNotFound)) && current.error == answer.err.value)
  {
  }

  /** isValidURL: the URL parses as a request URI and has both a scheme and a host. */
  predicate IsValidURL(s: LegacyService, u: string)
  {
    match s.parseRequestURI(u)
    case None => false
    case Some(p) => p.scheme != "" && p.host != ""
  }

  function InvalidURLError(u: string): Error
  {
    Message("create link error: invalid URL: '" + u + "'")
  }

  /** The shortcut the k-th lookup of CreateLink probes. A caller-supplied shortcut is probed
      first; every later lookup (and the first one, when no shortcut was supplied) probes a
      freshly generated shortcut, generations counting up from gen0. */
  function Tried(s: LegacyService, rng: (nat, nat) -> LetterIndex, gen0: nat, initial: string, k: nat): string
  {
    if k == 0 && initial != "" then initial
    else ShortcutFrom(s.shortLinksLength, rng, gen0 + k - (if initial == "" then 0 else 1))
  }

  /** The answer to the k-th lookup of CreateLink. */
  function TriedAnswer(s: LegacyService, rng: (nat, nat) -> LetterIndex, gen0: nat, initial: string, k: nat): LookupAnswer
  {
    s.repository.getByShortcut(k, Tried(s, rng, gen0, initial, k))
  }

  /** Every probed shortcut other than a caller-supplied one is a generated shortcut of the
      configured length made of ASCII letters. */
  lemma TriedShape(s: LegacyService, rng: (nat, nat) -> LetterIndex, gen0: nat, initial: string, k: nat)
    requires k > 0 || initial == ""
    ensures |Tried(s, rng, gen0, initial, k)| == s.shortLinksLength
    ensures forall i | 0 <= i < s.shortLinksLength :: IsLetter(Tried(s, rng, gen0, initial, k)[i])
  {
    ShortcutShape(s.shortLinksLength, rng, gen0 + k - (if initial == "" then 0 else 1));
  }

  /** The state of CreateLink's search after the lookups in `lookups`: every lookup probed the
      shortcut it should have, and all but (once the search has stopped) the last one found a
      link without an error; while searching, `shortcut` is the next one to probe, and once
      stopped, it is the last probed one, whose lookup failed. */
  ghost predicate Searching(s: LegacyService, rng: (nat, nat) -> LetterIndex, gen0: nat, initial: string,
                            lookups: seq<string>, shortcut: string, flag: bool)
  {
    && (forall i | 0 <= i < |lookups| :: lookups[i] == Tried(s, rng, gen0, initial, i))
    && (forall i | 0 <= i < |lookups| - (if flag then 0 else 1) :: TriedAnswer(s, rng, gen0, initial, i).err.None?)
    && (flag ==> shortcut == Tried(s, rng, gen0, initial, |lookups|))
    && (!flag ==> |lookups| >= 1 && shortcut == lookups[|lookups| - 1]
                  && TriedAnswer(s, rng, gen0, initial, |lookups| - 1).err.Some?)
  }

  /** A lookup that finds the probed shortcut without an error keeps the search going. */
  lemma SearchContinues(s: LegacyService, rng: (nat, nat) -> LetterIndex, gen0: nat, initial: string,
                        lookups: seq<string>, shortcut: string)
    requires Searching(s, rng, gen0, initial, lookups, shortcut, true)
    requires TriedAnswer(s, rng, gen0, initial, |lookups|).err.None?
    ensures Searching(s, rng, gen0, initial, lookups + [shortcut], Tried(s, rng, gen0, initial, |lookups| + 1), true)
  {
  }

  /** A lookup that fails stops the search at the probed shortcut. */
  lemma SearchStops(s: LegacyService, rng: (nat, nat) -> LetterIndex, gen0: nat, initial: string,
                    lookups: seq<string>, shortcut: string)
    requires Searching(s, rng, gen0, initial, lookups, shortcut, true)
    requires TriedAnswer(s, rng, gen0, initial, |lookups|).err.Some?
    ensures Searching(s, rng, gen0, initial, lookups + [shortcut], shortcut, false)
  {
  }

  /** One turn of CreateLink's loop: look the shortcut up, and generate the next one when the
      lookup succeeded. */
  method SearchStep(s: LegacyService, rng: (nat, nat) -> LetterIndex, gen0: nat, initial: string,
                    lookups: seq<string>, shortcut: string)
    returns (lookups': seq<string>, shortcut': string, flag: bool)
    requires Searching(s, rng, gen0, initial, lookups, shortcut, true)
    ensures Searching(s, rng, gen0, initial, lookups', shortcut', flag)
    ensures lookups' == lookups + [shortcut]
    ensures flag <==> TriedAnswer(s, rng, gen0, initial, |lookups|).err.None?
  {
    var answer := s.repository.getByShortcut(|lookups|, shortcut);
    lookups' := lookups + [shortcut];
    shortcut', flag := shortcut, true;
    if answer.err.None? {
      var offset := if initial == "" then 0 else 1;
      shortcut' := GenerateShortcut(s.shortLinksLength, rng, gen0 + |lookups'| - offset);
      SearchContinues(s, rng, gen0, initial, lookups, shortcut);
      return;
    }
    flag := false;
    SearchStops(s, rng, gen0, initial, lookups, shortcut);
  }

  /** CreateLink. An invalid URL is refused before any repository call. Otherwise the service
      keeps generating shortcuts for as long as the repository finds the probed one without an
      error, with no bound on the attempts, accepts the first shortcut whose lookup fails for
      any reason, and creates the link with it exactly once, returning Create's error.
      The shortcut is written into the caller's link in place; `created` is that link after the
      call, the value handed to Create. The source loops forever when no lookup ever fails; the model covers the runs that end. */
  method CreateLink(s: LegacyService, rng: (nat, nat) -> LetterIndex, gen0: nat, link: Link)
    returns (err: Option<Error>, lookups: seq<string>, created: Option<Link>)
    requires IsValidURL(s, link.FullURL) ==>
      exists n: nat :: TriedAnswer(s, rng, gen0, link.Shortcut, n).err.Some?
    ensures !IsValidURL(s, link.FullURL) ==>
      err == Some(InvalidURLError(link.FullURL)) && lookups == [] && created == None
    ensures IsValidURL(s, link.FullURL) ==>
      && |lookups| >= 1
      && (forall i | 0 <= i < |lookups| :: lookups[i] == Tried(s, rng, gen0, link.Shortcut, i))
      && (forall i | 0 <= i < |lookups| - 1 :: TriedAnswer(s, rng, gen0, link.Shortcut, i).err.None?)
      && TriedAnswer(s, rng, gen0, link.Shortcut, |lookups| - 1).err.Some?
      && created == Some(link.(Shortcut := lookups[|lookups| - 1]))
      && err == s.repository.create(created.value)
  {
    if !IsValidURL(s, link.FullURL) {
      return Some(InvalidURLError(link.FullURL)), [], None;
    }
    var shortcut;
    lookups, shortcut := FindShortcut(s, rng, gen0, link.Shortcut);
    created := Some(link.(Shortcut := shortcut));
    err := s.repository.create(created.value);
  }

  /** The search loop of CreateLink, from the caller-supplied shortcut `initial` ("" when none
      was supplied) until the first failing lookup. */
  method FindShortcut(s: LegacyService, rng: (nat, nat) -> LetterIndex, gen0: nat, initial: string)
    returns (lookups: seq<string>, shortcut: string)
    requires exists n: nat :: TriedAnswer(s, rng, gen0, initial, n).err.Some?
    ensures Searching(s, rng, gen0, initial, lookups, shortcut, false)
  {
    shortcut := initial;
    if shortcut == "" {
      shortcut := GenerateShortcut(s.shortLinksLength, rng, gen0);
    }
    ghost var n: nat :| TriedAnswer(s, rng, gen0, initial, n).err.Some?;
    lookups := [];
    var flag := true;
    while flag
      invariant Searching(s, rng, gen0, initial, lookups, shortcut, flag)
      invariant flag ==> |lookups| <= n
      decreases if flag then n + 1 - |lookups| else 0
    {
      lookups, shortcut, flag := SearchStep(s, rng, gen0, initial, lookups, shortcut);
    }
  }

  /** BuildShortURL: the shortcut joined onto the configured prefix, or onto the request's host
      over http when no prefix is configured. */
  function BuildShortURL(s: LegacyService, shortcut: string, host: string): (r: Result<string>)
    ensures s.shortLinksURLPrefix != "" ==> r == s.joinPath(s.shortLinksURLPrefix, shortcut)
    ensures s.shortLinksURLPrefix == "" ==> r == s.joinPath("http://" + host + "/", shortcut)
  {
    var base := if s.shortLinksURLPrefix == "" then "http://" + host + "/" else s.shortLinksURLPrefix;
    s.joinPath(base, shortcut)
  }

  /** The legacy and the current service validate URLs and build short URLs alike, given the
      same library functions and the same prefix. */
  lemma SameAsCurrentService(s: LegacyService, current: LinksService.Service, u: string, shortcut: string, host: string)
    requires current.parseRequestURI == s.parseRequestURI && current.joinPath == s.joinPath
    requires current.baseURL == s.shortLinksURLPrefix
    ensures IsValidURL(s, u) <==> LinksService.IsValidURL(current, u)
    ensures BuildShortURL(s, shortcut, host) == LinksService.BuildShortURL(current, shortcut, host)
  {
  }
}
