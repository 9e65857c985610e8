/** `process(config, usecase, usecases)`: one use case's pass through the
    reference phase, the version phase, the comparison and the error handler,
    over the in-memory use-case store that the script rewrites to disk after
    each change.

    The two `call_api` results are given as parameters (what the reference
    and the version server would answer); each call is logged with the body
    it was sent. Each rewrite of the store file is logged as a snapshot of the
    whole store. Exceptions are `Result` failures carrying a `PyError`. */
module Processing {
  import opened Wrappers
  import opened PyJson
  import opened Compare

  datatype Server = Reference | Version

  /** One `call_api` call: which server, and the request body sent to it. */
  datatype Call = Call(server: Server, body: Json)

  /** The two shapes `call_api` returns: `{status_code, response}` (response
      is None for an empty body) or `{status_code, error}`. */
  datatype ApiOutcome =
    | Reply(statusCode: Json, response: Json)
    | ApiError(statusCode: Json, error: string)

  /** How `process` ends: it returns a code, or an exception leaves it. */
  datatype Outcome = Returned(code: int) | Escaped(error: PyError)

  /** The store, the snapshots written to the store file so far, and the
      API calls made so far. */
  datatype State = State(entries: map<string, Json>, flushes: seq<map<string, Json>>, calls: seq<Call>)

  /** How the `try` body ends: a return, or an exception, with the state then. */
  datatype Attempt = Done(code: int, st: State) | Raised(error: PyError, st: State)

  datatype Step = Step(outcome: Outcome, st: State)

  /** How the reference phase ends: with the reference outcome to check, or
      with an exception. */
  datatype Phase = Continue(refData: ApiOutcome, st: State) | Stopped(error: PyError, st: State)

  /** `status_code != 200` is false: the status is a number equal to 200
      (an int, or a float such as 200.0). */
  predicate IsOk(status: Json) {
    IsNumber(status) && NumberValue(status) == 200.0
  }

  /** IsOk is Python's `status_code == 200`. */
  lemma IsOkIsEqualTo200(status: Json)
    ensures IsOk(status) <==> Equal(status, JInt(200))
  {
  }

  /** The dict `call_api` returns. */
  function AsDict(o: ApiOutcome): map<string, Json> {
    match o
    case Reply(status, response) => map["status_code" := status, "response" := response]
    case ApiError(status, error) => map["status_code" := status, "error" := JString(error)]
  }

  /** `outcome.get("response", {})` */
  function ResponseOrEmpty(o: ApiOutcome): (r: Json)
    ensures r == if "response" in AsDict(o) then AsDict(o)["response"] else JObject(map[])
  {
    if o.Reply? then o.response else JObject(map[])
  }

  /** `{"error": msg}` */
  function ErrorRecord(msg: string): Json {
    JObject(map["error" := JString(msg)])
  }

  /** What line 101 stores: the version response, or an error record when the
      version outcome has no `response` key. The fallback text "Erreur
      inconnue" is never used, since every error-shaped outcome has `error`. */
  function VersionRecord(o: ApiOutcome): (r: Json)
    ensures "response" in AsDict(o) ==> r == AsDict(o)["response"]
    ensures "response" !in AsDict(o) ==> "error" in AsDict(o) && r == JObject(map["error" := AsDict(o)["error"]])
  {
    if o.Reply? then o.response else ErrorRecord(o.error)
  }

  /** Rewriting the store file with the given store contents. */
  function Flushed(st: State, entries: map<string, Json>): State {
    State(entries, st.flushes + [entries], st.calls)
  }

  function Logged(st: State, server: Server, body: Json): State {
    st.(calls := st.calls + [Call(server, body)])
  }

  /** The store file reflects the store: a changed store has been written,
      and once anything has been written the last write holds the store. */
  ghost predicate Reflects(before: State, after: State) {
    && (after.entries != before.entries ==> |after.flushes| > |before.flushes|)
    && (|after.flushes| > |before.flushes| ==> after.flushes[|after.flushes| - 1] == after.entries)
  }

  /** Two steps that each keep the file in step with the store keep it so
      together. */
  lemma ReflectsTransitive(a: State, b: State, c: State)
    requires Extends(a, b) && Extends(b, c) && Reflects(a, b) && Reflects(b, c)
    ensures Extends(a, c) && Reflects(a, c)
  {
    if |c.flushes| > |a.flushes| && |c.flushes| == |b.flushes| {
      assert c.flushes == b.flushes;
    }
  }

  /** Only `uc`'s entry may change, and no key is added or removed. */
  ghost predicate OnlyEntryChanged(before: State, after: State, uc: string) {
    && after.entries.Keys == before.entries.Keys
    && forall k :: k in before.entries && k != uc ==> after.entries[k] == before.entries[k]
  }

  /** The logs only grow. */
  ghost predicate Extends(before: State, after: State) {
    before.flushes <= after.flushes && before.calls <= after.calls
  }

  /** `"result" in data and "http_code" in data`, with `and` short-circuiting. */
  function IsCached(data: Json): (r: Result<bool, PyError>)
    ensures r.Failure? <==> !(data.JObject? || data.JString? || data.JArray?)
    ensures data.JObject? ==> r == Success("result" in data.fields && "http_code" in data.fields)
  {
    match Contains(data, "result")
    case Failure(e) => Failure(e)
    case Success(false) => Success(false)
    case Success(true) => Contains(data, "http_code")
  }

  /** Lines 91-117: the version call, the status check, overwriting `result`
      with the version response, and the comparison. */
  function VersionOutcome(st: State, uc: string, refData: ApiOutcome, ver: ApiOutcome): (a: Attempt)
    requires uc in st.entries
    ensures OnlyEntryChanged(st, a.st, uc) && Reflects(st, a.st) && Extends(st, a.st)
    ensures a.Done? ==> 0 <= a.code <= 1
    ensures !a.st.entries[uc].JObject? ==> a.st.entries == st.entries && a.st.flushes == st.flushes
    ensures a.st.calls == st.calls + [Call(Version, st.entries[uc])]
  {
    var data := st.entries[uc];
    var st1 := Logged(st, Version, data);
    if !IsOk(refData.statusCode) || !IsOk(ver.statusCode) then Done(1, st1)
    else
      match SetItem(data, "result", VersionRecord(ver))
      case Failure(e) => Raised(e, st1)
      case Success(d) =>
        var st2 := Flushed(st1, st1.entries[uc := d]);
        match CompareJson(ResponseOrEmpty(refData), ResponseOrEmpty(ver))
        case Failure(e) => Raised(e, st2)
        case Success(None) => Done(0, st2)
        case Success(Some(_)) => Done(1, st2)
  }

  /** Lines 67-88: the use-case lookup and the reference phase. It yields the
      `result_data` the version phase checks and compares (the cached pair,
      or what the reference server answered), or the exception it raised. */
  function ReferenceOutcome(st: State, uc: string, ref: ApiOutcome): (p: Phase)
    ensures OnlyEntryChanged(st, p.st, uc) && Reflects(st, p.st) && Extends(st, p.st)
    ensures p.Continue? ==> uc in st.entries
    ensures |p.st.calls| <= |st.calls| + 1
    ensures uc in st.entries && !p.st.entries[uc].JObject? ==> p.st.entries == st.entries && p.st.flushes == st.flushes
    ensures uc in st.entries && !st.entries[uc].JObject? ==> p.st.entries == st.entries && p.st.flushes == st.flushes
  {
    if uc !in st.entries || !Truthy(st.entries[uc]) then
      Stopped(NotFound(uc), st)
    else
      var data := st.entries[uc];
      match IsCached(data)
      case Failure(e) => Stopped(e, st)
      case Success(true) =>
        (match GetItem(data, "http_code")
         case Failure(e) => Stopped(e, st)
         case Success(code) =>
           match GetItem(data, "result")
           case Failure(e) => Stopped(e, st)
           case Success(result) => Continue(Reply(code, result), st))
      case Success(false) =>
        var st1 := Logged(st, Reference, data);
        if ref.ApiError? then Continue(ref, st1)
        else
          match SetItem(data, "result", ref.response)
          case Failure(e) => Stopped(e, st1)
          case Success(d) =>
            Continue(ref, Flushed(st1, st1.entries[uc := JObject(d.fields["http_code" := ref.statusCode])]))
  }

  /** Lines 118-126: the handler writes `{"error": str(e)}` into the entry
      (into a fresh dict when the use case is missing), rewrites the store and
      returns 1; on a non-dict entry the assignment itself raises. */
  function Handled(st: State, uc: string, e: PyError): (s: Step)
    ensures OnlyEntryChanged(st, s.st, uc) && s.st.calls == st.calls
    ensures s.outcome.Returned? ==> s.outcome.code == 1 && s.st.flushes == st.flushes + [s.st.entries]
    ensures s.outcome.Escaped? ==> s.st == st
  {
    var data := if uc in st.entries then st.entries[uc] else JObject(map[]);
    match SetItem(data, "result", ErrorRecord(Str(e)))
    case Failure(e2) => Step(Escaped(e2), st)
    case Success(d) =>
      Step(Returned(1), Flushed(st, if uc in st.entries then st.entries[uc := d] else st.entries))
  }

  /** The rest of `process` once the reference phase has yielded its
      outcome: the version phase, then the handler if that raises. */
  function VersionStep(st: State, uc: string, refData: ApiOutcome, ver: ApiOutcome): (s: Step)
    requires uc in st.entries
    ensures OnlyEntryChanged(st, s.st, uc) && Reflects(st, s.st) && Extends(st, s.st)
    ensures s.outcome.Returned? ==> 0 <= s.outcome.code <= 1
    ensures s.outcome.Escaped? ==> s.st.entries == st.entries && s.st.flushes == st.flushes
    ensures s.st.calls == st.calls + [Call(Version, st.entries[uc])]
  {
    match VersionOutcome(st, uc, refData, ver)
    case Done(code, st') => Step(Returned(code), st')
    case Raised(e, st') => Handled(st', uc, e)
  }

  /** `process` as a whole: the reference phase, then the rest, with the
      handler taking over whenever the reference phase raises. */
  function Processed(st: State, uc: string, ref: ApiOutcome, ver: ApiOutcome): (s: Step)
    ensures OnlyEntryChanged(st, s.st, uc) && Reflects(st, s.st) && Extends(st, s.st)
    ensures s.outcome.Returned? ==> 0 <= s.outcome.code <= 1
    ensures s.outcome.Escaped? ==> s.st.entries == st.entries && s.st.flushes == st.flushes
    ensures |s.st.calls| <= |st.calls| + 2
  {
    match ReferenceOutcome(st, uc, ref)
    case Stopped(e, st') => Handled(st', uc, e)
    case Continue(refData, st') => VersionStep(st', uc, refData, ver)
  }

  /** The use-case store of the script (`usecases`), updated in place. */
  class UseCaseStore {
    var entries: map<string, Json>
    ghost var flushes: seq<map<string, Json>>
    ghost var calls: seq<Call>

    ghost function Snapshot(): State
      reads this
    {
      State(entries, flushes, calls)
    }

    /** The store as `json.load` read it. */
    constructor (loaded: map<string, Json>)
      ensures Snapshot() == State(loaded, [], [])
    {
      entries := loaded;
      flushes := [];
      calls := [];
    }

    /** `json.dump(usecases, f, ...)` into the store file. */
    method Flush()
      modifies this
      ensures entries == old(entries) && calls == old(calls)
      ensures flushes == old(flushes) + [entries]
    {
      flushes := flushes + [entries];
    }

    /** `call_api(server, token, body)`, answering with the given outcome. */
    method CallApi(server: Server, body: Json, answer: ApiOutcome) returns (o: ApiOutcome)
      modifies this
      ensures o == answer
      ensures entries == old(entries) && flushes == old(flushes)
      ensures calls == old(calls) + [Call(server, body)]
    {
      calls := calls + [Call(server, body)];
      o := answer;
    }

    method VersionPhase(useCase: string, referenceData: ApiOutcome, version: ApiOutcome)
      returns (r: Result<int, PyError>)
      requires useCase in entries
      modifies this
      ensures var a := VersionOutcome(old(Snapshot()), useCase, referenceData, version);
        Snapshot() == a.st && r == (if a.Done? then Success(a.code) else Failure(a.error))
    {
      var data := entries[useCase];
      var versionData := CallApi(Version, data, version);
      if !IsOk(referenceData.statusCode) || !IsOk(versionData.statusCode) {
        return Success(1);
      }
      data :- SetItem(data, "result", VersionRecord(versionData));
      entries := entries[useCase := data];
      Flush();
      var differences :- CompareJson(ResponseOrEmpty(referenceData), ResponseOrEmpty(versionData));
      if differences.Some? {
        return Success(1);
      }
      return Success(0);
    }

    method ReferencePhase(useCase: string, reference: ApiOutcome)
      returns (r: Result<ApiOutcome, PyError>)
      modifies this
      ensures var p := ReferenceOutcome(old(Snapshot()), useCase, reference);
        Snapshot() == p.st && r == (if p.Continue? then Success(p.refData) else Failure(p.error))
    {
      if useCase !in entries || !Truthy(entries[useCase]) {
        return Failure(NotFound(useCase));
      }
      var data := entries[useCase];
      var cached :- Contains(data, "result");
      if cached {
        // a value that answered the first `in` answers the second as well
        cached := Contains(data, "http_code").value;
      }
      if cached {
        var code :- GetItem(data, "http_code");
        // `data` is then a dict holding both keys
        return Success(Reply(code, GetItem(data, "result").value));
      }
      var referenceData := CallApi(Reference, data, reference);
      if referenceData.Reply? {
        data :- SetItem(data, "result", referenceData.response);
        data := JObject(data.fields["http_code" := referenceData.statusCode]);
        entries := entries[useCase := data];
        Flush();
      }
      return Success(referenceData);
    }

    method Process(useCase: string, reference: ApiOutcome, version: ApiOutcome)
      returns (outcome: Outcome)
      modifies this
      ensures var s := Processed(old(Snapshot()), useCase, reference, version);
        outcome == s.outcome && Snapshot() == s.st
    {
      var r: Result<int, PyError>;
      var referenceData := ReferencePhase(useCase, reference);
      if referenceData.Success? {
        r := VersionPhase(useCase, referenceData.value, version);
      } else {
        r := Failure(referenceData.error);
      }
      if r.Success? {
        return Returned(r.value);
      }
      var data := if useCase in entries then entries[useCase] else JObject(map[]);
      var recorded := SetItem(data, "result", ErrorRecord(Str(r.error)));
      if recorded.Failure? {
        return Escaped(recorded.error);
      }
      if useCase in entries {
        entries := entries[useCase := recorded.value];
      }
      Flush();
      return Returned(1);
    }
  }
}
