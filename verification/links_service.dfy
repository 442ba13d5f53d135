/** The link service (internal/service/links_service.go): URL validation, unique shortcut
    generation, single and batch creation, and short-URL building.

    The repository is a Go interface; here it is given by the answers it returns. The n-th
    repository call of one service operation (counted from `base`) receives answer n, and the
    operation returns the calls it made, in order. Randomness is a parameter too: generation g
    of a shortcut draws `rng(g, i)` for position i. */
module LinksService {
  import opened Wrappers
  import opened Errors
  import opened Model
  import opened Shortcuts

  /** A call the service makes on its repository. */
  datatype RepositoryCall =
    | GetByShortcutCall(shortcut: string)
    | CreateCall(dto: CreateLinkDto, userID: string, inTransaction: bool)
    | GetTransactionExecuterCall
    | CommitCall

  /** What repository.Create returns: the stored link, whether it was new, and an error. */
  datatype CreateAnswer = CreateAnswer(link: Link, created: bool, err: Option<Error>)

  /** The repository's answers, by call number. Commit's result is discarded by the service. */
  datatype Repository = Repository(
    getByShortcut: (nat, string) -> Result<Link>,
    create: (nat, CreateLinkDto, string) -> CreateAnswer,
    getTransactionExecuter: nat -> Option<Error>)

  /** The parts of a url.URL the service inspects. */
  datatype ParsedURL = ParsedURL(scheme: string, host: string)

  /** The service with its configuration (Server.ShortLinksLength, Server.BaseURL) and the
      library functions it relies on: url.ParseRequestURI (None is a parse error) and url.JoinPath. */
  datatype Service = Service(
    shortLinksLength: nat,
    baseURL: string,
    repository: Repository,
    parseRequestURI: string -> Option<ParsedURL>,
    joinPath: (string, string) -> Result<string>)

  const MaxAttempts := 5
  const UniqueShortcutError := "create link error: could not generate unique shortcut after 5 attempts"
  /** What the Go run time reports when err.Error() is called on a nil error. */
  const NilErrorPanic := "runtime error: invalid memory address or nil pointer dereference"

  function InvalidURLError(u: string): Error
  {
    Message("create link error: invalid URL: '" + u + "'")
  }

  /** isValidURL: the URL parses as a request URI and has both a scheme and a host. */
  predicate IsValidURL(s: Service, u: string)
  {
    match s.parseRequestURI(u)
    case None => false
    case Some(p) => p.scheme != "" && p.host != ""
  }

  /** The shortcut produced by generation g. */
  function Candidate(s: Service, rng: (nat, nat) -> LetterIndex, g: nat): string
  {
    ShortcutFrom(s.shortLinksLength, rng, g)
  }

  /** The answer to lookup i of a createUniqueShortcut run that starts at call `base` and
      generation `gen0`, when lookup i probes generation gen0 + i. */
  function Probe(s: Service, rng: (nat, nat) -> LetterIndex, base: nat, gen0: nat, i: nat): Result<Link>
  {
    s.repository.getByShortcut(base + i, Candidate(s, rng, gen0 + i))
  }

  /** GetFullURLFromShort: the stored URL of the link the repository finds, or its error. */
  function GetFullURLFromShort(answer: Result<Link>): (r: Result<string>)
    ensures r.Ok? <==> answer.Ok?
    ensures answer.Ok? ==> r.value == answer.value.FullURL
    ensures answer.Err? ==> r.error == answer.error
  {
    match answer
    case Ok(link) => Ok(link.FullURL)
    case Err(e) => Err(e)
  }

  /** The prefix of short URLs: the configured base URL, or the request's host over http. */
  function ShortURLPrefix(s: Service, host: string): (p: string)
    ensures s.baseURL != "" ==> p == s.baseURL
    ensures s.baseURL == "" ==> p == "http://" + host + "/"
  {
    if s.baseURL == "" then "http://" + host + "/" else s.baseURL
  }

  /** BuildShortURL: the shortcut joined onto the prefix. */
  function BuildShortURL(s: Service, shortcut: string, host: string): Result<string>
  {
    s.joinPath(ShortURLPrefix(s, host), shortcut)
  }

  /** The lookups of the candidates of generations gen0 .. gen0 + n - 1, in order. */
  function LookupCalls(s: Service, rng: (nat, nat) -> LetterIndex, gen0: nat, n: nat): (calls: seq<RepositoryCall>)
    ensures |calls| == n
  {
    if n == 0 then [] else LookupCalls(s, rng, gen0, n - 1) + [GetByShortcutCall(Candidate(s, rng, gen0 + n - 1))]
  }

  /** The probing loop of createUniqueShortcut from attempt k on, as (lookups made, generation of
      the last candidate, counted from gen0). Lookup k probes the candidate of generation
      gen0 + k; a failed lookup draws a new candidate and goes on, a successful one ends the loop. */
  function Probing(s: Service, rng: (nat, nat) -> LetterIndex, base: nat, gen0: nat, k: nat): (nat, nat)
    requires k <= MaxAttempts
    decreases MaxAttempts - k
  {
    if k == MaxAttempts then (k, k)
    else if Probe(s, rng, base, gen0, k).Err? then Probing(s, rng, base, gen0, k + 1)
    else (k + 1, k)
  }

  /** The outcome of a createUniqueShortcut run. */
  datatype ShortcutSearch = ShortcutSearch(result: Result<string>, calls: seq<RepositoryCall>, gens: nat)

  /** The final check of createUniqueShortcut on the last candidate, of generation gen0 + last,
      after `lookups` lookups: exactly ErrNotFound (compared by identity, not errors.Is) accepts it;
      any other error rejects it; a successful lookup leaves err nil, and the source's
      err.Error() on it panics. */
  function FinalCheck(s: Service, rng: (nat, nat) -> LetterIndex, base: nat, gen0: nat, lookups: nat, last: nat): ShortcutSearch
  {
    var shortcut := Candidate(s, rng, gen0 + last);
    var answer := s.repository.getByShortcut(base + lookups, shortcut);
    var calls := LookupCalls(s, rng, gen0, lookups) + [GetByShortcutCall(shortcut)];
    if answer == Err(NotFound) then ShortcutSearch(Ok(shortcut), calls, last + 1)
    else if answer.Ok? then ShortcutSearch(Err(Panic(NilErrorPanic)), calls, last + 1)
    else ShortcutSearch(Err(Message(UniqueShortcutError)), calls, last + 1)
  }

  /** createUniqueShortcut, as a function of the repository's answers and the random draws. */
  function UniqueShortcut(s: Service, rng: (nat, nat) -> LetterIndex, base: nat, gen0: nat): ShortcutSearch
  {
    var p := Probing(s, rng, base, gen0, 0);
    FinalCheck(s, rng, base, gen0, p.0, p.1)
  }

  /** The probing loop makes between one and five lookups; every lookup but the last failed; and
      its last candidate is the one it looked up last unless all five lookups failed, in which
      case it is a sixth, never looked up in the loop. */
  lemma {:induction false} ProbingBounds(s: Service, rng: (nat, nat) -> LetterIndex, base: nat, gen0: nat, k: nat)
    requires k <= MaxAttempts
    requires forall i | 0 <= i < k :: Probe(s, rng, base, gen0, i).Err?
    ensures var (lookups, last) := Probing(s, rng, base, gen0, k);
      && k <= lookups <= MaxAttempts && 1 <= lookups
      && (forall i | 0 <= i < lookups - 1 :: Probe(s, rng, base, gen0, i).Err?)
      && (last == lookups - 1 <==> Probe(s, rng, base, gen0, lookups - 1).Ok?)
      && (last != lookups - 1 ==> last == lookups == MaxAttempts)
    decreases MaxAttempts - k
  {
    if k < MaxAttempts && Probe(s, rng, base, gen0, k).Err? {
      ProbingBounds(s, rng, base, gen0, k + 1);
    }
  }

  lemma {:induction false} LookupCallsAt(s: Service, rng: (nat, nat) -> LetterIndex, gen0: nat, n: nat)
    ensures forall i | 0 <= i < n :: LookupCalls(s, rng, gen0, n)[i] == GetByShortcutCall(Candidate(s, rng, gen0 + i))
  {
    if n > 0 {
      LookupCallsAt(s, rng, gen0, n - 1);
    }
  }

  /** createUniqueShortcut makes lookups and nothing else. */
  lemma UniqueShortcutOnlyLooksUp(s: Service, rng: (nat, nat) -> LetterIndex, base: nat, gen0: nat)
    ensures forall c | c in UniqueShortcut(s, rng, base, gen0).calls :: c.GetByShortcutCall?
  {
    var p := Probing(s, rng, base, gen0, 0);
    LookupCallsAt(s, rng, gen0, p.0);
  }

  /** What createUniqueShortcut does: two to six lookups; lookup i probes the candidate of
      generation gen0 + i; every lookup of the loop but its last failed; the final lookup
      re-checks the last candidate; and the result is that candidate exactly when the final lookup
      reported ErrNotFound, so an accepted shortcut is one the repository does not hold, live or
      deleted. */
  lemma UniqueShortcutSpec(s: Service, rng: (nat, nat) -> LetterIndex, base: nat, gen0: nat)
    ensures var u := UniqueShortcut(s, rng, base, gen0);
      && 2 <= |u.calls| <= MaxAttempts + 1
      && 1 <= u.gens <= MaxAttempts + 1
      && (forall i | 0 <= i < |u.calls| - 1 :: u.calls[i] == GetByShortcutCall(Candidate(s, rng, gen0 + i)))
      && (forall i | 0 <= i < |u.calls| - 2 :: Probe(s, rng, base, gen0, i).Err?)
      && u.calls[|u.calls| - 1] == GetByShortcutCall(Candidate(s, rng, gen0 + u.gens - 1))
      && var last := s.repository.getByShortcut(base + |u.calls| - 1, Candidate(s, rng, gen0 + u.gens - 1));
         && (u.result.Ok? <==> last == Err(NotFound))
         && (u.result.Ok? ==> u.result.value == Candidate(s, rng, gen0 + u.gens - 1))
         && (last.Ok? ==> u.result == Err(Panic(NilErrorPanic)))
         && (last.Err? && last.error != NotFound ==> u.result == Err(Message(UniqueShortcutError)))
  {
    ProbingBounds(s, rng, base, gen0, 0);
    var p := Probing(s, rng, base, gen0, 0);
    LookupCallsAt(s, rng, gen0, p.0);
  }

  /** The probing loop goes on while candidates are free and stops at a taken one: when the
      repository answers by shortcut alone and every shortcut is free, five free candidates are
      drawn and discarded and the sixth is accepted. */
  lemma FreeCandidatesAreDiscarded(s: Service, rng: (nat, nat) -> LetterIndex, base: nat, gen0: nat)
    requires forall n: nat, shortcut: string :: s.repository.getByShortcut(n, shortcut) == Err(NotFound)
    ensures UniqueShortcut(s, rng, base, gen0) ==
      ShortcutSearch(Ok(Candidate(s, rng, gen0 + MaxAttempts)), LookupCalls(s, rng, gen0, MaxAttempts + 1), MaxAttempts + 1)
  {
    ProbingBounds(s, rng, base, gen0, 0);
  }

  /** When the first candidate is taken and the repository answers by shortcut alone, the loop
      stops, the final lookup finds the taken shortcut again with a nil error, and logging that
      nil error panics. */
  lemma TakenCandidatePanics(s: Service, rng: (nat, nat) -> LetterIndex, base: nat, gen0: nat, link: Link)
    requires forall n: nat :: s.repository.getByShortcut(n, Candidate(s, rng, gen0)) == Ok(link)
    ensures UniqueShortcut(s, rng, base, gen0).result == Err(Panic(NilErrorPanic))
  {
    assert Probe(s, rng, base, gen0, 0) == Ok(link);
  }

  /** The loop outcome described by ProbingBounds is the one Probing computes. */
  lemma ProbingOutcome(s: Service, rng: (nat, nat) -> LetterIndex, base: nat, gen0: nat, lookups: nat, last: nat)
    requires 1 <= lookups <= MaxAttempts
    requires forall i | 0 <= i < lookups - 1 :: Probe(s, rng, base, gen0, i).Err?
    requires (last == lookups - 1 && Probe(s, rng, base, gen0, last).Ok?) ||
             (last == lookups == MaxAttempts && Probe(s, rng, base, gen0, last - 1).Err?)
    ensures Probing(s, rng, base, gen0, 0) == (lookups, last)
  {
    ProbingBounds(s, rng, base, gen0, 0);
  }

  /** One pass of the probing loop: look the current candidate up and, when the lookup fails,
      draw the next one. */
  method ProbeAttempt(s: Service, rng: (nat, nat) -> LetterIndex, base: nat, gen0: nat, attempt: nat,
                      shortcut: string)
    returns (taken: bool, call: RepositoryCall, next: string)
    requires shortcut == Candidate(s, rng, gen0 + attempt)
    ensures call == GetByShortcutCall(shortcut)
    ensures LookupCalls(s, rng, gen0, attempt + 1) == LookupCalls(s, rng, gen0, attempt) + [call]
    ensures taken <==> Probe(s, rng, base, gen0, attempt).Ok?
    ensures !taken ==> next == Candidate(s, rng, gen0 + attempt + 1)
  {
    var answer := s.repository.getByShortcut(base + attempt, shortcut);
    call := GetByShortcutCall(shortcut);
    taken := answer.Ok?;
    next := shortcut;
    if !taken {
      next := GenerateShortcut(s.shortLinksLength, rng, gen0 + attempt + 1);
    }
  }

  /** The probing loop: up to five lookups, each of a freshly generated candidate. */
  method ProbeCandidates(s: Service, rng: (nat, nat) -> LetterIndex, base: nat, gen0: nat)
    returns (shortcut: string, calls: seq<RepositoryCall>, last: nat)
    ensures 1 <= |calls| <= MaxAttempts
    ensures calls == LookupCalls(s, rng, gen0, |calls|)
    ensures forall i | 0 <= i < |calls| - 1 :: Probe(s, rng, base, gen0, i).Err?
    ensures (last == |calls| - 1 && Probe(s, rng, base, gen0, last).Ok?) ||
            (last == |calls| == MaxAttempts && Probe(s, rng, base, gen0, last - 1).Err?)
    ensures shortcut == Candidate(s, rng, gen0 + last)
  {
    shortcut := GenerateShortcut(s.shortLinksLength, rng, gen0);
    calls := [];
    var attempt := 0;
    while attempt < MaxAttempts
      invariant attempt == |calls| <= MaxAttempts
      invariant shortcut == Candidate(s, rng, gen0 + attempt)
      invariant calls == LookupCalls(s, rng, gen0, attempt)
      invariant forall i | 0 <= i < attempt :: Probe(s, rng, base, gen0, i).Err?
    {
      var taken, call, next := ProbeAttempt(s, rng, base, gen0, attempt, shortcut);
      calls := calls + [call];
      if !taken {
        attempt := attempt + 1;
        shortcut := next;
        continue;
      }
      break;
    }
    last := attempt;
  }

  /** createUniqueShortcut: the probing loop, then the final check of the last candidate. */
  method CreateUniqueShortcut(s: Service, rng: (nat, nat) -> LetterIndex, base: nat, gen0: nat)
    returns (r: Result<string>, calls: seq<RepositoryCall>, gens: nat)
    ensures ShortcutSearch(r, calls, gens) == UniqueShortcut(s, rng, base, gen0)
  {
    var shortcut, last;
    shortcut, calls, last := ProbeCandidates(s, rng, base, gen0);
    ghost var lookups := |calls|;
    ProbingOutcome(s, rng, base, gen0, lookups, last);
    gens := last + 1;
    var answer := s.repository.getByShortcut(base + |calls|, shortcut);
    calls := calls + [GetByShortcutCall(shortcut)];
    if answer != Err(NotFound) {
      if answer.Ok? {
        r := Err(Panic(NilErrorPanic));
      } else {
        r := Err(Message(UniqueShortcutError));
      }
    } else {
      r := Ok(shortcut);
    }
    assert ShortcutSearch(r, calls, gens) == FinalCheck(s, rng, base, gen0, lookups, last);
  }

  /** CreateLink. `auth` is what GetOrCreateAndSaveAuthorization yields: the user's id, or the
      error that aborts the request. An invalid URL is refused without touching the repository;
      an empty shortcut is replaced by a generated one (UniqueShortcut), and when generation fails
      the link comes back with an empty shortcut; then the repository creates the link outside any
      transaction and its answer is returned unchanged. The generated shortcut is written into the
      caller's dto in place: `written` is that dto after the call, and it is the one handed to the
      repository. */
  method CreateLink(s: Service, rng: (nat, nat) -> LetterIndex, base: nat, gen0: nat,
                    dto: CreateLinkDto, auth: Result<string>)
    returns (link: Option<Link>, created: bool, err: Option<Error>, calls: seq<RepositoryCall>, gens: nat,
             written: CreateLinkDto)
    ensures written.FullURL == dto.FullURL
    ensures auth.Err? || !IsValidURL(s, dto.FullURL) || dto.Shortcut != "" ==> written == dto
    ensures auth.Ok? && IsValidURL(s, dto.FullURL) && dto.Shortcut == "" ==>
      var u := UniqueShortcut(s, rng, base, gen0);
      written.Shortcut == (if u.result.Ok? then u.result.value else "")
    ensures forall c | c in calls && c.CreateCall? :: c.dto == written
    ensures auth.Err? ==>
      link == None && !created && err == Some(auth.error) && calls == [] && gens == 0
    ensures auth.Ok? && !IsValidURL(s, dto.FullURL) ==>
      && link == Some(dto.NewLink(auth.value)) && !created
      && err == Some(InvalidURLError(dto.FullURL)) && calls == [] && gens == 0
    ensures auth.Ok? && IsValidURL(s, dto.FullURL) && dto.Shortcut != "" ==>
      && calls == [CreateCall(dto, auth.value, false)] && gens == 0
      && var a := s.repository.create(base, dto, auth.value);
         link == Some(a.link) && created == a.created && err == a.err
    ensures auth.Ok? && IsValidURL(s, dto.FullURL) && dto.Shortcut == "" ==>
      var u := UniqueShortcut(s, rng, base, gen0);
      && gens == u.gens
      && (u.result.Err? ==>
            link == Some(dto.NewLink(auth.value)) && !created && err == Some(u.result.error) && calls == u.calls)
      && (u.result.Ok? ==>
            var request := CreateLinkDto(dto.FullURL, u.result.value);
            var a := s.repository.create(base + |u.calls|, request, auth.value);
            && calls == u.calls + [CreateCall(request, auth.value, false)]
            && link == Some(a.link) && created == a.created && err == a.err)
  {
    if auth.Err? {
      return None, false, Some(auth.error), [], 0, dto;
    }
    var userID := auth.value;
    if !IsValidURL(s, dto.FullURL) {
      return Some(dto.NewLink(userID)), false, Some(InvalidURLError(dto.FullURL)), [], 0, dto;
    }
    var request := dto;
    calls, gens := [], 0;
    if dto.Shortcut == "" {
      var generated;
      generated, calls, gens := CreateUniqueShortcut(s, rng, base, gen0);
      if generated.Err? {
        request := request.(Shortcut := "");
        UniqueShortcutOnlyLooksUp(s, rng, base, gen0);
        return Some(request.NewLink(userID)), false, Some(generated.error), calls, gens, request;
      }
      request := request.(Shortcut := generated.value);
    }
    var a := s.repository.create(base + |calls|, request, userID);
    if dto.Shortcut == "" {
      UniqueShortcutOnlyLooksUp(s, rng, base, gen0);
    }
    calls := calls + [CreateCall(request, userID, false)];
    return Some(a.link), a.created, a.err, calls, gens, request;
  }

  /** The URLs of the Create calls among `calls`, in order. */
  ghost function CreatedURLs(calls: seq<RepositoryCall>): seq<string>
  {
    if calls == [] then []
    else
      var c := calls[|calls| - 1];
      CreatedURLs(calls[..|calls| - 1]) + (if c.CreateCall? then [c.dto.FullURL] else [])
  }

  lemma {:induction false} CreatedURLsAppend(a: seq<RepositoryCall>, b: seq<RepositoryCall>)
    ensures CreatedURLs(a + b) == CreatedURLs(a) + CreatedURLs(b)
    decreases |b|
  {
    if b == [] {
      assert a + b == a;
    } else {
      var n := |b| - 1;
      assert (a + b)[..|a + b| - 1] == a + b[..n];
      CreatedURLsAppend(a, b[..n]);
    }
  }

  lemma CreatedURLsSkip(calls: seq<RepositoryCall>, c: RepositoryCall)
    requires !c.CreateCall?
    ensures CreatedURLs(calls + [c]) == CreatedURLs(calls)
  {
    assert (calls + [c])[..|calls|] == calls;
  }

  lemma {:induction false} NoCreatedURLs(calls: seq<RepositoryCall>)
    requires forall c | c in calls :: c.GetByShortcutCall?
    ensures CreatedURLs(calls) == []
    decreases |calls|
  {
    if calls != [] {
      assert forall c | c in calls[..|calls| - 1] :: c in calls;
      assert calls[|calls| - 1] in calls;
      NoCreatedURLs(calls[..|calls| - 1]);
    }
  }

  /** The URLs of a batch, in order. */
  function ItemURLs(items: seq<CreateLinkWithCorrelationIDRequestItem>): (urls: seq<string>)
    ensures |urls| == |items|
  {
    if items == [] then [] else ItemURLs(items[..|items| - 1]) + [items[|items| - 1].FullURL]
  }

  lemma ItemURLsSnoc(items: seq<CreateLinkWithCorrelationIDRequestItem>, index: nat)
    requires index < |items|
    ensures ItemURLs(items[..index + 1]) == ItemURLs(items[..index]) + [items[index].FullURL]
  {
    assert items[..index + 1][..index] == items[..index];
  }

  /** The batch commit condition as written, `index+1%1000 == 0 || index == len(links)-1`.
      `%` binds tighter than `+`, so the left disjunct is `index + 1 == 0`. */
  predicate CommitDue(index: nat, n: nat)
  {
    index + 1 % 1000 == 0 || index == n - 1
  }

  /** The intended "every 1000 links" commit never fires: the batch commits inside the loop
      only after its last link. */
  lemma CommitDueOnlyAtLast(index: nat, n: nat)
    requires index < n
    ensures CommitDue(index, n) <==> index == n - 1
    ensures index == 999 && n > 1000 ==> !CommitDue(index, n)
  {
  }

  /** The outcome of one batch item: its response or error, its repository calls, the number
      of shortcuts it generated, and whether createUniqueShortcut panicked, which unwinds the
      whole batch at once. */
  datatype ItemOutcome = ItemOutcome(result: Result<CreateLinkWithCorrelationIDResponseItem>,
                                     calls: seq<RepositoryCall>, gens: nat, panicked: bool)

  /** One batch item up to the commit decision: validate its URL, generate a unique shortcut,
      create the link (in the transaction when there is one), and build its short URL. */
  function BatchItem(s: Service, rng: (nat, nat) -> LetterIndex, base: nat, gen0: nat,
                     item: CreateLinkWithCorrelationIDRequestItem, userID: string,
                     inTransaction: bool, host: string): ItemOutcome
  {
    if !IsValidURL(s, item.FullURL) then ItemOutcome(Err(InvalidURLError(item.FullURL)), [], 0, false)
    else
      var u := UniqueShortcut(s, rng, base, gen0);
      if u.result.Err? then ItemOutcome(Err(u.result.error), u.calls, u.gens, u.result == Err(Panic(NilErrorPanic)))
      else
        var request := CreateLinkDto(item.FullURL, u.result.value);
        var a := s.repository.create(base + |u.calls|, request, userID);
        var calls := u.calls + [CreateCall(request, userID, inTransaction)];
        if a.err.Some? then ItemOutcome(Err(a.err.value), calls, u.gens, false)
        else match BuildShortURL(s, a.link.Shortcut, host)
          case Err(e) => ItemOutcome(Err(e), calls, u.gens, false)
          case Ok(shortURL) =>
            ItemOutcome(Ok(CreateLinkWithCorrelationIDResponseItem(shortURL, item.CorrelationID)), calls, u.gens, false)
  }

  /** Call `n` of a log whose first call has number `base` is a Create for `url`, answered
      without error by a link whose short URL is the response's. */
  ghost predicate CreatedResponse(s: Service, base: nat, calls: seq<RepositoryCall>, n: nat, url: string,
                                  host: string, response: CreateLinkWithCorrelationIDResponseItem)
  {
    && n < |calls| && calls[n].CreateCall? && calls[n].dto.FullURL == url
    && var a := s.repository.create(base + n, calls[n].dto, calls[n].userID);
       a.err.None? && BuildShortURL(s, a.link.Shortcut, host) == Ok(response.Shortcut)
  }

  /** A successful batch item ends with the Create of its URL, and its response carries the short
      URL built from the shortcut of the link that Create returned; an item whose shortcut
      search panicked made no Create and reports the nil-pointer panic. */
  lemma BatchItemShortURL(s: Service, rng: (nat, nat) -> LetterIndex, base: nat, gen0: nat,
                          item: CreateLinkWithCorrelationIDRequestItem, userID: string,
                          inTransaction: bool, host: string)
    ensures var o := BatchItem(s, rng, base, gen0, item, userID, inTransaction, host);
      && (o.result.Ok? ==>
            1 <= |o.calls| && CreatedResponse(s, base, o.calls, |o.calls| - 1, item.FullURL, host, o.result.value))
      && (o.panicked ==> o.result == Err(Panic(NilErrorPanic)) && CreatedURLs(o.calls) == [])
  {
    var o := BatchItem(s, rng, base, gen0, item, userID, inTransaction, host);
    var u := UniqueShortcut(s, rng, base, gen0);
    if o.result.Ok? {
      assert IsValidURL(s, item.FullURL) && u.result.Ok?;
      var request := CreateLinkDto(item.FullURL, u.result.value);
      assert o.calls == u.calls + [CreateCall(request, userID, inTransaction)];
    }
    if o.panicked {
      assert IsValidURL(s, item.FullURL) && o.calls == u.calls;
      UniqueShortcutOnlyLooksUp(s, rng, base, gen0);
      NoCreatedURLs(u.calls);
    }
  }

  /** A batch item makes lookups and at most one Create call, made for the caller and in the
      transaction exactly when there is one, and never commits or begins a transaction. */
  lemma BatchItemCalls(s: Service, rng: (nat, nat) -> LetterIndex, base: nat, gen0: nat,
                       item: CreateLinkWithCorrelationIDRequestItem, userID: string,
                       inTransaction: bool, host: string)
    ensures var o := BatchItem(s, rng, base, gen0, item, userID, inTransaction, host);
      && CommitCall !in o.calls && GetTransactionExecuterCall !in o.calls
      && (forall c | c in o.calls && c.CreateCall? :: c.inTransaction == inTransaction && c.userID == userID)
  {
    if IsValidURL(s, item.FullURL) {
      UniqueShortcutOnlyLooksUp(s, rng, base, gen0);
    }
  }

  /** A successful batch item passed URL validation, echoes its correlation id, and created
      exactly one link, for its own URL. */
  lemma BatchItemSuccess(s: Service, rng: (nat, nat) -> LetterIndex, base: nat, gen0: nat,
                         item: CreateLinkWithCorrelationIDRequestItem, userID: string,
                         inTransaction: bool, host: string)
    ensures var o := BatchItem(s, rng, base, gen0, item, userID, inTransaction, host);
      o.result.Ok? ==>
        && IsValidURL(s, item.FullURL) && o.result.value.CorrelationID == item.CorrelationID
        && CreatedURLs(o.calls) == [item.FullURL]
  {
    var o := BatchItem(s, rng, base, gen0, item, userID, inTransaction, host);
    if o.result.Ok? {
      var u := UniqueShortcut(s, rng, base, gen0);
      assert IsValidURL(s, item.FullURL) && u.result.Ok?;
      var request := CreateLinkDto(item.FullURL, u.result.value);
      var a := s.repository.create(base + |u.calls|, request, userID);
      assert a.err.None? && BuildShortURL(s, a.link.Shortcut, host).Ok?;
      assert o.calls == u.calls + [CreateCall(request, userID, inTransaction)];
      UniqueShortcutOnlyLooksUp(s, rng, base, gen0);
      NoCreatedURLs(u.calls);
      CreatedURLsAppend(u.calls, [CreateCall(request, userID, inTransaction)]);
    }
  }

  /** createBatchItem's steps, as BulkCreateWithCorrelationID runs them for one item. */
  method CreateBatchItem(s: Service, rng: (nat, nat) -> LetterIndex, base: nat, gen0: nat,
                         item: CreateLinkWithCorrelationIDRequestItem, userID: string,
                         inTransaction: bool, host: string)
    returns (r: Result<CreateLinkWithCorrelationIDResponseItem>, calls: seq<RepositoryCall>, gens: nat,
             panicked: bool)
    ensures ItemOutcome(r, calls, gens, panicked) == BatchItem(s, rng, base, gen0, item, userID, inTransaction, host)
  {
    if !IsValidURL(s, item.FullURL) {
      return Err(InvalidURLError(item.FullURL)), [], 0, false;
    }
    var generated;
    generated, calls, gens := CreateUniqueShortcut(s, rng, base, gen0);
    if generated.Err? {
      return Err(generated.error), calls, gens, generated == Err(Panic(NilErrorPanic));
    }
    var request := CreateLinkDto(item.FullURL, generated.value);
    var a := s.repository.create(base + |calls|, request, userID);
    calls := calls + [CreateCall(request, userID, inTransaction)];
    if a.err.Some? {
      return Err(a.err.value), calls, gens, false;
    }
    var shortURL := BuildShortURL(s, a.link.Shortcut, host);
    if shortURL.Err? {
      return Err(shortURL.error), calls, gens, false;
    }
    return Ok(CreateLinkWithCorrelationIDResponseItem(shortURL.value, item.CorrelationID)), calls, gens, false;
  }

  /** The shape of the repository call log of a batch: it starts with the transaction request,
      every Create is made for the caller and in the transaction exactly when there is one, and
      without transactions nothing is ever committed. */
  ghost predicate BatchLog(calls: seq<RepositoryCall>, userID: string, inTransaction: bool)
  {
    && 1 <= |calls| && calls[0] == GetTransactionExecuterCall
    && (forall c | c in calls && c.CreateCall? :: c.inTransaction == inTransaction && c.userID == userID)
    && (!inTransaction ==> CommitCall !in calls)
  }

  /** The state of the batch loop before item `index`: the first `index` items have responses
      that echo their correlation ids, their URLs were valid, exactly their URLs were created,
      in order, and nothing has been committed yet. */
  ghost predicate BatchProgress(s: Service, items: seq<CreateLinkWithCorrelationIDRequestItem>, index: nat,
                                userID: string, inTransaction: bool,
                                result: seq<CreateLinkWithCorrelationIDResponseItem>, calls: seq<RepositoryCall>)
  {
    && index <= |items| && |result| == index
    && (forall k | 0 <= k < index ::
          result[k].CorrelationID == items[k].CorrelationID && IsValidURL(s, items[k].FullURL))
    && CreatedURLs(calls) == ItemURLs(items[..index])
    && BatchLog(calls, userID, inTransaction)
    && (index == 0 ==> calls == [GetTransactionExecuterCall])
    && CommitCall !in calls
  }

  /** The responses so far each carry the short URL of the link answered by their item's Create,
      call `createdAt[k]` of the log; those calls come in item order, each a later call than the
      one before, so two items with the same URL are tied to two different Creates. */
  ghost predicate ShortURLs(s: Service, base: nat, host: string, items: seq<CreateLinkWithCorrelationIDRequestItem>,
                            result: seq<CreateLinkWithCorrelationIDResponseItem>, calls: seq<RepositoryCall>,
                            createdAt: seq<nat>)
  {
    && |createdAt| == |result| <= |items|
    && (forall k | 0 <= k < |result| :: CreatedResponse(s, base, calls, createdAt[k], items[k].FullURL, host, result[k]))
    && (forall i, j | 0 <= i < j < |createdAt| :: createdAt[i] < createdAt[j])
  }

  /** Once every item is done, each item's response is tied to its own Create, in item order,
      whatever calls follow. */
  lemma ShortURLsComplete(s: Service, base: nat, host: string, items: seq<CreateLinkWithCorrelationIDRequestItem>,
                          result: seq<CreateLinkWithCorrelationIDResponseItem>, calls: seq<RepositoryCall>,
                          createdAt: seq<nat>, more: seq<RepositoryCall>)
    requires ShortURLs(s, base, host, items, result, calls, createdAt) && |result| == |items|
    ensures |createdAt| == |items|
    ensures forall i | 0 <= i < |items| ::
      CreatedResponse(s, base, calls + more, createdAt[i], items[i].FullURL, host, result[i])
    ensures forall i, j | 0 <= i < j < |items| :: createdAt[i] < createdAt[j]
  {
    ShortURLsExtend(s, base, host, items, result, calls, createdAt, more);
  }

  /** Calls appended to the log leave the earlier Create calls and their answers in place. */
  lemma ShortURLsExtend(s: Service, base: nat, host: string, items: seq<CreateLinkWithCorrelationIDRequestItem>,
                        result: seq<CreateLinkWithCorrelationIDResponseItem>, calls: seq<RepositoryCall>,
                        createdAt: seq<nat>, more: seq<RepositoryCall>)
    requires ShortURLs(s, base, host, items, result, calls, createdAt)
    ensures ShortURLs(s, base, host, items, result, calls + more, createdAt)
  {
  }

  /** The next item's response, made by the Create at position n of its own calls, joins the
      responses once those calls are appended to the log. */
  lemma ShortURLsStep(s: Service, base: nat, host: string, items: seq<CreateLinkWithCorrelationIDRequestItem>,
                      result: seq<CreateLinkWithCorrelationIDResponseItem>, calls: seq<RepositoryCall>,
                      createdAt: seq<nat>, more: seq<RepositoryCall>, n: nat,
                      response: CreateLinkWithCorrelationIDResponseItem)
    requires ShortURLs(s, base, host, items, result, calls, createdAt) && |result| < |items|
    requires CreatedResponse(s, base + |calls|, more, n, items[|result|].FullURL, host, response)
    ensures ShortURLs(s, base, host, items, result + [response], calls + more, createdAt + [|calls| + n])
  {
  }

  /** The calls of one batch item keep the shape of the log. */
  lemma BatchLogAppend(calls: seq<RepositoryCall>, more: seq<RepositoryCall>, userID: string, inTransaction: bool)
    requires BatchLog(calls, userID, inTransaction)
    requires forall c | c in more && c.CreateCall? :: c.inTransaction == inTransaction && c.userID == userID
    requires !inTransaction ==> CommitCall !in more
    ensures BatchLog(calls + more, userID, inTransaction)
    ensures CommitCall !in calls && CommitCall !in more ==> CommitCall !in calls + more
  {
  }

  /** A successful item moves the batch loop one item further. */
  lemma BatchProgressStep(s: Service, items: seq<CreateLinkWithCorrelationIDRequestItem>, index: nat,
                          userID: string, inTransaction: bool,
                          result: seq<CreateLinkWithCorrelationIDResponseItem>, calls: seq<RepositoryCall>,
                          response: CreateLinkWithCorrelationIDResponseItem, itemCalls: seq<RepositoryCall>)
    requires BatchProgress(s, items, index, userID, inTransaction, result, calls) && index < |items|
    requires CommitCall !in itemCalls
    requires forall c | c in itemCalls && c.CreateCall? :: c.inTransaction == inTransaction && c.userID == userID
    requires IsValidURL(s, items[index].FullURL) && response.CorrelationID == items[index].CorrelationID
    requires CreatedURLs(calls + itemCalls) == CreatedURLs(calls) + [items[index].FullURL]
    ensures BatchProgress(s, items, index + 1, userID, inTransaction, result + [response], calls + itemCalls)
  {
    BatchLogAppend(calls, itemCalls, userID, inTransaction);
    ItemURLsSnoc(items, index);
  }

  /** One batch item as the batch loop uses it: CreateBatchItem, with the facts of BatchItemCalls and BatchItemSuccess
      stated for the whole call log after it. */
  method BatchStep(s: Service, rng: (nat, nat) -> LetterIndex, base: nat, gen0: nat,
                   item: CreateLinkWithCorrelationIDRequestItem, userID: string,
                   inTransaction: bool, host: string, before: seq<RepositoryCall>)
    returns (r: Result<CreateLinkWithCorrelationIDResponseItem>, itemCalls: seq<RepositoryCall>, gens: nat,
             panicked: bool)
    ensures CommitCall !in itemCalls && GetTransactionExecuterCall !in itemCalls
    ensures forall c | c in itemCalls && c.CreateCall? :: c.inTransaction == inTransaction && c.userID == userID
    ensures r.Ok? ==> IsValidURL(s, item.FullURL) && r.value.CorrelationID == item.CorrelationID
    ensures r.Ok? ==> CreatedURLs(before + itemCalls) == CreatedURLs(before) + [item.FullURL]
    ensures r.Ok? ==>
      1 <= |itemCalls| && CreatedResponse(s, base, itemCalls, |itemCalls| - 1, item.FullURL, host, r.value)
    ensures panicked ==> r == Err(Panic(NilErrorPanic))
  {
    r, itemCalls, gens, panicked := CreateBatchItem(s, rng, base, gen0, item, userID, inTransaction, host);
    BatchItemCalls(s, rng, base, gen0, item, userID, inTransaction, host);
    BatchItemSuccess(s, rng, base, gen0, item, userID, inTransaction, host);
    BatchItemShortURL(s, rng, base, gen0, item, userID, inTransaction, host);
    CreatedURLsAppend(before, itemCalls);
  }

  /** The commit point inside the batch loop: commit, then ask for a new transaction. */
  method Recommit(s: Service, base: nat, before: seq<RepositoryCall>)
    returns (again: Option<Error>, calls: seq<RepositoryCall>)
    ensures calls == before + [CommitCall, GetTransactionExecuterCall]
    ensures again == s.repository.getTransactionExecuter(base + |before| + 1)
    ensures CreatedURLs(calls) == CreatedURLs(before)
  {
    CreatedURLsSkip(before, CommitCall);
    calls := before + [CommitCall];
    again := s.repository.getTransactionExecuter(base + |calls|);
    CreatedURLsSkip(calls, GetTransactionExecuterCall);
    calls := calls + [GetTransactionExecuterCall];
  }

  /** The state of the batch loop after an item that did not abort: `uncommitted` is the call log
      up to the in-loop commit, if there was one, and only the last item can be followed by it. */
  ghost predicate BatchLoopState(s: Service, items: seq<CreateLinkWithCorrelationIDRequestItem>, index: nat,
                                 userID: string, inTransaction: bool,
                                 result: seq<CreateLinkWithCorrelationIDResponseItem>,
                                 calls: seq<RepositoryCall>, uncommitted: seq<RepositoryCall>)
  {
    && BatchProgress(s, items, index, userID, inTransaction, result, uncommitted)
    && (calls == uncommitted ||
        (inTransaction && index == |items| && index > 0 &&
         calls == uncommitted + [CommitCall, GetTransactionExecuterCall]))
    && (inTransaction && index == |items| && index > 0 ==> calls != uncommitted)
    && CreatedURLs(calls) == CreatedURLs(uncommitted)
  }

  /** One pass of the batch loop: create item `index`; on failure commit the open transaction
      and stop with the error, except after a panic, which unwinds past the commit; after a
      success commit and begin anew when CommitDue holds, and stop when beginning fails. */
  method BatchIteration(s: Service, rng: (nat, nat) -> LetterIndex, base: nat, gen0: nat,
                        items: seq<CreateLinkWithCorrelationIDRequestItem>, index: nat, userID: string,
                        supportTransaction: bool, host: string,
                        result: seq<CreateLinkWithCorrelationIDResponseItem>, calls: seq<RepositoryCall>,
                        ghost createdAt: seq<nat>)
    returns (result': seq<CreateLinkWithCorrelationIDResponseItem>, calls': seq<RepositoryCall>,
             gens: nat, stop: Option<Error>, panicked: bool,
             ghost uncommitted: seq<RepositoryCall>, ghost createdAt': seq<nat>)
    requires index < |items|
    requires BatchProgress(s, items, index, userID, supportTransaction, result, calls)
    requires ShortURLs(s, base, host, items, result, calls, createdAt)
    ensures stop.None? ==>
      && BatchLoopState(s, items, index + 1, userID, supportTransaction, result', calls', uncommitted)
      && ShortURLs(s, base, host, items, result', calls', createdAt')
    ensures stop.Some? ==> BatchLog(calls', userID, supportTransaction)
    ensures panicked ==> stop == Some(Panic(NilErrorPanic)) && CommitCall !in calls'
    ensures stop.Some? && supportTransaction && !panicked ==>
      2 <= |calls'| && (calls'[|calls'| - 1] == CommitCall ||
                        calls'[|calls'| - 2..] == [CommitCall, GetTransactionExecuterCall])
  {
    var r, itemCalls;
    r, itemCalls, gens, panicked := BatchStep(s, rng, base + |calls|, gen0, items[index], userID,
                                              supportTransaction, host, calls);
    BatchLogAppend(calls, itemCalls, userID, supportTransaction);
    calls' := calls + itemCalls;
    if r.Err? {
      if supportTransaction && !panicked {
        BatchLogAppend(calls', [CommitCall], userID, supportTransaction);
        calls' := calls' + [CommitCall];
      }
      return result, calls', gens, Some(r.error), panicked, calls', createdAt;
    }
    result', calls', stop, uncommitted, createdAt' :=
      BatchAdvance(s, base, items, index, userID, supportTransaction, host, result, calls, createdAt,
                   r.value, itemCalls);
  }

  /** The rest of a pass after a successful item: record its response, then commit and begin
      anew when CommitDue holds. */
  method BatchAdvance(s: Service, base: nat, items: seq<CreateLinkWithCorrelationIDRequestItem>, index: nat,
                      userID: string, supportTransaction: bool, host: string,
                      result: seq<CreateLinkWithCorrelationIDResponseItem>, calls: seq<RepositoryCall>,
                      ghost createdAt: seq<nat>,
                      response: CreateLinkWithCorrelationIDResponseItem, itemCalls: seq<RepositoryCall>)
    returns (result': seq<CreateLinkWithCorrelationIDResponseItem>, calls': seq<RepositoryCall>,
             stop: Option<Error>, ghost uncommitted: seq<RepositoryCall>, ghost createdAt': seq<nat>)
    requires BatchProgress(s, items, index, userID, supportTransaction, result, calls) && index < |items|
    requires ShortURLs(s, base, host, items, result, calls, createdAt)
    requires CommitCall !in itemCalls
    requires forall c | c in itemCalls && c.CreateCall? :: c.inTransaction == supportTransaction && c.userID == userID
    requires IsValidURL(s, items[index].FullURL) && response.CorrelationID == items[index].CorrelationID
    requires CreatedURLs(calls + itemCalls) == CreatedURLs(calls) + [items[index].FullURL]
    requires 1 <= |itemCalls| &&
      CreatedResponse(s, base + |calls|, itemCalls, |itemCalls| - 1, items[index].FullURL, host, response)
    ensures result' == result + [response]
    ensures stop.None? ==>
      && BatchLoopState(s, items, index + 1, userID, supportTransaction, result', calls', uncommitted)
      && ShortURLs(s, base, host, items, result', calls', createdAt')
    ensures stop.Some? ==> BatchLog(calls', userID, supportTransaction)
    ensures stop.Some? ==>
      supportTransaction && 2 <= |calls'| && calls'[|calls'| - 2..] == [CommitCall, GetTransactionExecuterCall]
  {
    BatchProgressStep(s, items, index, userID, supportTransaction, result, calls, response, itemCalls);
    ShortURLsStep(s, base, host, items, result, calls, createdAt, itemCalls, |itemCalls| - 1, response);
    result' := result + [response];
    calls' := calls + itemCalls;
    createdAt' := createdAt + [|calls| + |itemCalls| - 1];
    uncommitted := calls';
    stop := None;
    if supportTransaction && CommitDue(index, |items|) {
      BatchLogAppend(calls', [CommitCall, GetTransactionExecuterCall], userID, supportTransaction);
      stop, calls' := Recommit(s, base, calls');
      ShortURLsExtend(s, base, host, items, result', uncommitted, createdAt', [CommitCall, GetTransactionExecuterCall]);
    }
  }

  /** The item loop of BulkCreateWithCorrelationID, entered after the first transaction request
      (one GetTransactionExecuter call, at `base`) succeeded or reported that the executer has no
      transactions. Each item is created as by CreateBatchItem; a failed item aborts the batch with
      no result, committing the open transaction first, but a panic in createUniqueShortcut
      unwinds without committing. When CommitDue holds the transaction is committed and a new one
      begun, and an error beginning it aborts without a commit. */
  method BatchLoop(s: Service, rng: (nat, nat) -> LetterIndex, base: nat, gen0: nat,
                   items: seq<CreateLinkWithCorrelationIDRequestItem>, userID: string,
                   supportTransaction: bool, host: string)
    returns (result: seq<CreateLinkWithCorrelationIDResponseItem>, err: Option<Error>,
             calls: seq<RepositoryCall>, gens: nat, panicked: bool, ghost createdAt: seq<nat>)
    ensures BatchLog(calls, userID, supportTransaction)
    ensures err.Some? ==> result == []
    ensures panicked ==> err == Some(Panic(NilErrorPanic)) && CommitCall !in calls
    ensures supportTransaction && err.Some? && !panicked ==>
      2 <= |calls| && (calls[|calls| - 1] == CommitCall ||
                       calls[|calls| - 2..] == [CommitCall, GetTransactionExecuterCall])
    ensures err.None? ==>
      && |result| == |items|
      && (forall i | 0 <= i < |items| ::
            result[i].CorrelationID == items[i].CorrelationID && IsValidURL(s, items[i].FullURL))
      && CreatedURLs(calls) == ItemURLs(items)
      && ShortURLs(s, base, host, items, result, calls, createdAt)
    ensures err.None? && (items == [] || !supportTransaction) ==> CommitCall !in calls
    ensures err.None? && items == [] ==> calls == [GetTransactionExecuterCall]
    ensures supportTransaction && err.None? && items != [] ==>
      && 3 <= |calls| && calls[|calls| - 2..] == [CommitCall, GetTransactionExecuterCall]
      && CommitCall !in calls[..|calls| - 2]
  {
    var stop;
    ghost var uncommitted;
    result, stop, calls, gens, panicked, uncommitted, createdAt :=
      BatchItemLoop(s, rng, base, gen0, items, userID, supportTransaction, host);
    if stop.Some? {
      return [], stop, calls, gens, panicked, createdAt;
    }
    BatchLoopExit(s, items, userID, supportTransaction, result, calls, uncommitted);
    err := None;
  }

  /** The `for` loop over the items itself: it runs BatchIteration until an iteration stops or
      every item is done. */
  method BatchItemLoop(s: Service, rng: (nat, nat) -> LetterIndex, base: nat, gen0: nat,
                       items: seq<CreateLinkWithCorrelationIDRequestItem>, userID: string,
                       supportTransaction: bool, host: string)
    returns (result: seq<CreateLinkWithCorrelationIDResponseItem>, stop: Option<Error>,
             calls: seq<RepositoryCall>, gens: nat, panicked: bool,
             ghost uncommitted: seq<RepositoryCall>, ghost createdAt: seq<nat>)
    ensures stop.None? ==>
      && !panicked
      && BatchLoopState(s, items, |items|, userID, supportTransaction, result, calls, uncommitted)
      && ShortURLs(s, base, host, items, result, calls, createdAt)
    ensures stop.Some? ==> BatchLog(calls, userID, supportTransaction)
    ensures panicked ==> stop == Some(Panic(NilErrorPanic)) && CommitCall !in calls
    ensures stop.Some? && supportTransaction && !panicked ==>
      2 <= |calls| && (calls[|calls| - 1] == CommitCall ||
                       calls[|calls| - 2..] == [CommitCall, GetTransactionExecuterCall])
  {
    calls := [GetTransactionExecuterCall];
    result, gens, panicked, stop := [], 0, false, None;
    createdAt := [];
    var index := 0;
    uncommitted := calls;
    while index < |items|
      invariant index <= |items| && !panicked && stop.None?
      invariant BatchLoopState(s, items, index, userID, supportTransaction, result, calls, uncommitted)
      invariant ShortURLs(s, base, host, items, result, calls, createdAt)
    {
      var itemGens;
      result, calls, itemGens, stop, panicked, uncommitted, createdAt :=
        BatchIteration(s, rng, base, gen0 + gens, items, index, userID, supportTransaction, host,
                       result, calls, createdAt);
      gens := gens + itemGens;
      if stop.Some? {
        return;
      }
      index := index + 1;
    }
  }

  /** What the state of the batch loop says once every item is done. */
  lemma BatchLoopExit(s: Service, items: seq<CreateLinkWithCorrelationIDRequestItem>, userID: string,
                      inTransaction: bool, result: seq<CreateLinkWithCorrelationIDResponseItem>,
                      calls: seq<RepositoryCall>, uncommitted: seq<RepositoryCall>)
    requires BatchLoopState(s, items, |items|, userID, inTransaction, result, calls, uncommitted)
    ensures BatchLog(calls, userID, inTransaction)
    ensures |result| == |items|
    ensures forall i | 0 <= i < |items| ::
      result[i].CorrelationID == items[i].CorrelationID && IsValidURL(s, items[i].FullURL)
    ensures CreatedURLs(calls) == ItemURLs(items)
    ensures items == [] || !inTransaction ==> CommitCall !in calls
    ensures items == [] ==> calls == [GetTransactionExecuterCall]
    ensures inTransaction && items != [] ==>
      && 3 <= |calls| && calls[|calls| - 2..] == [CommitCall, GetTransactionExecuterCall]
      && CommitCall !in calls[..|calls| - 2]
  {
    assert items[..|items|] == items;
    if calls != uncommitted {
      assert calls[..|calls| - 2] == uncommitted;
      BatchLogAppend(uncommitted, [CommitCall, GetTransactionExecuterCall], userID, inTransaction);
    }
  }

  /** BulkCreateWithCorrelationID. The repository is first asked for a transaction: an error
      that is ErrExecuterNotSupportTransactions (by errors.Is) means running without one, any
      other error aborts. The items are then created by BatchLoop, and after the loop the open
      transaction is committed. Each response carries the short URL of the link its item's
      Create returned. With transactions, a successful batch therefore commits exactly
      twice, both times after its last item, and begins a second transaction in between. */
  method BulkCreateWithCorrelationID(s: Service, rng: (nat, nat) -> LetterIndex, base: nat, gen0: nat,
                                     items: seq<CreateLinkWithCorrelationIDRequestItem>,
                                     auth: Result<string>, host: string)
    returns (result: seq<CreateLinkWithCorrelationIDResponseItem>, err: Option<Error>,
             calls: seq<RepositoryCall>, gens: nat, panicked: bool, ghost createdAt: seq<nat>)
    ensures auth.Err? ==> result == [] && err == Some(auth.error) && calls == []
    ensures err.Some? ==> result == []
    ensures panicked ==> err == Some(Panic(NilErrorPanic)) && CommitCall !in calls
    ensures auth.Ok? ==> 1 <= |calls| && calls[0] == GetTransactionExecuterCall
    ensures auth.Ok? ==> forall c | c in calls && c.CreateCall? :: c.userID == auth.value
    ensures auth.Ok? ==>
      var probe := s.repository.getTransactionExecuter(base);
      && (probe.Some? && !Is(probe.value, ExecuterNotSupportTransactions) ==>
            result == [] && err == probe && calls == [GetTransactionExecuterCall])
      && (probe.Some? && Is(probe.value, ExecuterNotSupportTransactions) ==>
            && CommitCall !in calls
            && forall c | c in calls && c.CreateCall? :: !c.inTransaction)
      && (probe.None? ==>
            && (forall c | c in calls && c.CreateCall? :: c.inTransaction)
            && (!panicked ==>
                  && 2 <= |calls|
                  && (calls[|calls| - 1] == CommitCall ||
                      (err.Some? && calls[|calls| - 2..] == [CommitCall, GetTransactionExecuterCall]))))
    ensures err.None? ==>
      && |result| == |items|
      && (forall i | 0 <= i < |items| ::
            result[i].CorrelationID == items[i].CorrelationID && IsValidURL(s, items[i].FullURL))
      && CreatedURLs(calls) == ItemURLs(items)
      && |createdAt| == |items|
      && (forall i | 0 <= i < |items| ::
            CreatedResponse(s, base, calls, createdAt[i], items[i].FullURL, host, result[i]))
      && (forall i, j | 0 <= i < j < |items| :: createdAt[i] < createdAt[j])
    ensures auth.Ok? && s.repository.getTransactionExecuter(base).None? && err.None? ==>
      && (items == [] ==> calls == [GetTransactionExecuterCall, CommitCall])
      && (items != [] ==>
            && 4 <= |calls| && calls[|calls| - 3..] == [CommitCall, GetTransactionExecuterCall, CommitCall]
            && CommitCall !in calls[..|calls| - 3])
  {
    if auth.Err? {
      return [], Some(auth.error), [], 0, false, [];
    }
    var probe := s.repository.getTransactionExecuter(base);
    var supportTransaction := true;
    if probe.Some? {
      if Is(probe.value, ExecuterNotSupportTransactions) {
        supportTransaction := false;
      } else {
        return [], probe, [GetTransactionExecuterCall], 0, false, [];
      }
    }
    result, err, calls, gens, panicked, createdAt :=
      CommittedBatch(s, rng, base, gen0, items, auth.value, supportTransaction, host);
  }

  /** What follows the first transaction request in BulkCreateWithCorrelationID: BatchLoop, then,
      when the batch succeeded in a transaction, the final commit. */
  method CommittedBatch(s: Service, rng: (nat, nat) -> LetterIndex, base: nat, gen0: nat,
                        items: seq<CreateLinkWithCorrelationIDRequestItem>, userID: string,
                        supportTransaction: bool, host: string)
    returns (result: seq<CreateLinkWithCorrelationIDResponseItem>, err: Option<Error>,
             calls: seq<RepositoryCall>, gens: nat, panicked: bool, ghost createdAt: seq<nat>)
    ensures BatchLog(calls, userID, supportTransaction)
    ensures err.Some? ==> result == []
    ensures panicked ==> err == Some(Panic(NilErrorPanic)) && CommitCall !in calls
    ensures supportTransaction && !panicked ==>
      && 2 <= |calls|
      && (calls[|calls| - 1] == CommitCall ||
          (err.Some? && calls[|calls| - 2..] == [CommitCall, GetTransactionExecuterCall]))
    ensures err.None? ==>
      && |result| == |items|
      && (forall i | 0 <= i < |items| ::
            result[i].CorrelationID == items[i].CorrelationID && IsValidURL(s, items[i].FullURL))
      && CreatedURLs(calls) == ItemURLs(items)
      && |createdAt| == |items|
      && (forall i | 0 <= i < |items| ::
            CreatedResponse(s, base, calls, createdAt[i], items[i].FullURL, host, result[i]))
      && (forall i, j | 0 <= i < j < |items| :: createdAt[i] < createdAt[j])
    ensures supportTransaction && err.None? ==>
      && (items == [] ==> calls == [GetTransactionExecuterCall, CommitCall])
      && (items != [] ==>
            && 4 <= |calls| && calls[|calls| - 3..] == [CommitCall, GetTransactionExecuterCall, CommitCall]
            && CommitCall !in calls[..|calls| - 3])
  {
    result, err, calls, gens, panicked, createdAt :=
      BatchLoop(s, rng, base, gen0, items, userID, supportTransaction, host);
    if err.None? && supportTransaction {
      CreatedURLsSkip(calls, CommitCall);
      ShortURLsComplete(s, base, host, items, result, calls, createdAt, [CommitCall]);
      if items != [] {
        assert (calls + [CommitCall])[..|calls| - 2] == calls[..|calls| - 2];
      }
      calls := calls + [CommitCall];
    } else if err.None? {
      ShortURLsComplete(s, base, host, items, result, calls, createdAt, []);
      assert calls + [] == calls;
    }
  }
}
