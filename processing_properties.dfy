/** What one call of `process` does to the use-case store, to the store file
    and to the servers, rule by rule. */
module ProcessingProperties {
  import opened Wrappers
  import opened PyJson
  import opened Compare
  import opened Processing

  /** A cached `result` + `http_code` pair is the reference outcome: no call
      is made and nothing is written. */
  lemma ReferenceCached(st: State, uc: string, ref: ApiOutcome)
    requires uc in st.entries && st.entries[uc].JObject?
    requires var fields := st.entries[uc].fields; "result" in fields && "http_code" in fields
    ensures var fields := st.entries[uc].fields;
      ReferenceOutcome(st, uc, ref) == Continue(Reply(fields["http_code"], fields["result"]), st)
  {
    assert |st.entries[uc].fields| > 0 by { assert "result" in st.entries[uc].fields; }
  }

  /** Without a cached pair the reference server is called with the entry; a
      reply that has a `response` key is stored as `result` / `http_code` and
      the store is rewritten straight away, whatever its status. */
  lemma ReferenceFresh(st: State, uc: string, ref: ApiOutcome)
    requires uc in st.entries && st.entries[uc].JObject? && Truthy(st.entries[uc])
    requires var fields := st.entries[uc].fields; !("result" in fields && "http_code" in fields)
    requires ref.Reply?
    ensures var fields := st.entries[uc].fields;
      var persisted := st.entries[uc := JObject(fields["result" := ref.response]["http_code" := ref.statusCode])];
      ReferenceOutcome(st, uc, ref)
        == Continue(ref, State(persisted, st.flushes + [persisted], st.calls + [Call(Reference, st.entries[uc])]))
  {
  }

  /** Without a cached pair, an error-shaped reference outcome is passed on
      but neither stored nor written. */
  lemma ReferenceErrorShaped(st: State, uc: string, ref: ApiOutcome)
    requires uc in st.entries && st.entries[uc].JObject? && Truthy(st.entries[uc])
    requires var fields := st.entries[uc].fields; !("result" in fields && "http_code" in fields)
    requires ref.ApiError?
    ensures ReferenceOutcome(st, uc, ref)
         == Continue(ref, State(st.entries, st.flushes, st.calls + [Call(Reference, st.entries[uc])]))
  {
  }

  /** A cached pair stands in for the reference call: whatever the reference
      server would answer makes no difference, the cached pair is the
      reference outcome, and only the version server is called, with the
      entry as it was. */
  lemma CachedPairSkipsReference(st: State, uc: string, ref: ApiOutcome, other: ApiOutcome, ver: ApiOutcome)
    requires uc in st.entries && st.entries[uc].JObject?
    requires var fields := st.entries[uc].fields; "result" in fields && "http_code" in fields
    ensures var fields := st.entries[uc].fields;
      Processed(st, uc, ref, ver) == VersionStep(st, uc, Reply(fields["http_code"], fields["result"]), ver)
    ensures Processed(st, uc, ref, ver) == Processed(st, uc, other, ver)
    ensures Processed(st, uc, ref, ver).st.calls == st.calls + [Call(Version, st.entries[uc])]
  {
    ReferenceCached(st, uc, ref);
    ReferenceCached(st, uc, other);
  }

  /** Without a cached pair, a reply that has a `response` key is written to
      the file before the version call, even when its status is not 200, and
      `http_code` keeps that status whatever happens afterwards. */
  lemma FreshReplyPersisted(st: State, uc: string, ref: ApiOutcome, ver: ApiOutcome)
    requires uc in st.entries && st.entries[uc].JObject? && Truthy(st.entries[uc])
    requires var fields := st.entries[uc].fields; !("result" in fields && "http_code" in fields)
    requires ref.Reply?
    ensures var fields, s := st.entries[uc].fields, Processed(st, uc, ref, ver);
      var persisted := st.entries[uc := JObject(fields["result" := ref.response]["http_code" := ref.statusCode])];
      && st.flushes + [persisted] <= s.st.flushes
      && uc in s.st.entries && s.st.entries[uc].JObject? && "http_code" in s.st.entries[uc].fields
      && s.st.entries[uc].fields["http_code"] == ref.statusCode
  {
    ReferenceFresh(st, uc, ref);
    var p := ReferenceOutcome(st, uc, ref);
    VersionStepKeepsOtherFields(p.st, uc, ref, ver, "http_code");
  }

  /** Without a cached pair, an error-shaped reference outcome leaves the
      entry untouched: both servers are called with it, and if its status is
      not 200 nothing is written at all. */
  lemma ErrorShapedReferenceNotStored(st: State, uc: string, ref: ApiOutcome, ver: ApiOutcome)
    requires uc in st.entries && st.entries[uc].JObject? && Truthy(st.entries[uc])
    requires var fields := st.entries[uc].fields; !("result" in fields && "http_code" in fields)
    requires ref.ApiError?
    ensures var s := Processed(st, uc, ref, ver);
      && s.st.calls == st.calls + [Call(Reference, st.entries[uc]), Call(Version, st.entries[uc])]
      && (!IsOk(ref.statusCode) ==> s.outcome == Returned(1) && s.st.entries == st.entries && s.st.flushes == st.flushes)
  {
    ReferenceErrorShaped(st, uc, ref);
    var p := ReferenceOutcome(st, uc, ref);
    if !IsOk(ref.statusCode) {
      NonOkStatusShortCircuits(p.st, uc, ref, ver);
    }
  }

  /** If the reference status or the version status is not exactly 200, the
      version phase returns 1 right after the version call, writing nothing:
      the store and the file stay as the reference phase left them. */
  lemma NonOkStatusShortCircuits(st: State, uc: string, refData: ApiOutcome, ver: ApiOutcome)
    requires uc in st.entries
    requires !IsOk(refData.statusCode) || !IsOk(ver.statusCode)
    ensures VersionStep(st, uc, refData, ver)
         == Step(Returned(1), State(st.entries, st.flushes, st.calls + [Call(Version, st.entries[uc])]))
  {
  }

  /** The version phase on a dict entry with both statuses 200: `result` is
      overwritten, the store rewritten, and the comparison decides the rest. */
  lemma VersionPhaseBothOk(st: State, uc: string, refData: ApiOutcome, ver: ApiOutcome)
    requires uc in st.entries && st.entries[uc].JObject?
    requires IsOk(refData.statusCode) && IsOk(ver.statusCode)
    ensures var a, diff := VersionOutcome(st, uc, refData, ver), CompareJson(ResponseOrEmpty(refData), ResponseOrEmpty(ver));
      && a.st.entries == st.entries[uc := JObject(st.entries[uc].fields["result" := VersionRecord(ver)])]
      && a.st.flushes == st.flushes + [a.st.entries]
      && (diff.Success? ==> a == Done(if diff.value == None then 0 else 1, a.st))
      && (diff.Failure? ==> a == Raised(diff.error, a.st))
  {
  }

  /** On a dict entry the handler stores the error and rewrites the store. */
  lemma HandledOnObject(st: State, uc: string, e: PyError)
    requires uc in st.entries && st.entries[uc].JObject?
    ensures var entries := st.entries[uc := JObject(st.entries[uc].fields["result" := ErrorRecord(Str(e))])];
      Handled(st, uc, e) == Step(Returned(1), Flushed(st, entries))
  {
  }

  /** When both statuses are 200, line 101 overwrites `result` with the
      version response (`http_code` is not touched) and the store is
      rewritten; the code is 0 exactly when the comparison finds nothing. */
  lemma BothOkCompares(st: State, uc: string, refData: ApiOutcome, ver: ApiOutcome)
    requires uc in st.entries && st.entries[uc].JObject?
    requires IsOk(refData.statusCode) && IsOk(ver.statusCode)
    requires CompareJson(ResponseOrEmpty(refData), ResponseOrEmpty(ver)).Success?
    ensures var s, diff := VersionStep(st, uc, refData, ver), CompareJson(ResponseOrEmpty(refData), ResponseOrEmpty(ver)).value;
      && s.st.entries == st.entries[uc := JObject(st.entries[uc].fields["result" := VersionRecord(ver)])]
      && s.st.flushes == st.flushes + [s.st.entries]
      && s.outcome == (if diff == None then Returned(0) else Returned(1))
  {
    VersionPhaseBothOk(st, uc, refData, ver);
  }

  /** When both statuses are 200 but the comparison raises (a reference or
      version response that is not a dict), the handler replaces the version
      response just written to `result` by the error; the file receives both
      versions of the store in turn. */
  lemma BothOkComparisonRaises(st: State, uc: string, refData: ApiOutcome, ver: ApiOutcome)
    requires uc in st.entries && st.entries[uc].JObject?
    requires IsOk(refData.statusCode) && IsOk(ver.statusCode)
    requires CompareJson(ResponseOrEmpty(refData), ResponseOrEmpty(ver)).Failure?
    ensures var s, e := VersionStep(st, uc, refData, ver), CompareJson(ResponseOrEmpty(refData), ResponseOrEmpty(ver)).error;
      var fields := st.entries[uc].fields;
      var written := st.entries[uc := JObject(fields["result" := VersionRecord(ver)])];
      && s.st.entries == st.entries[uc := JObject(fields["result" := ErrorRecord(Str(e))])]
      && s.st.flushes == st.flushes + [written, s.st.entries]
      && s.outcome == Returned(1)
  {
    VersionPhaseBothOk(st, uc, refData, ver);
    var a := VersionOutcome(st, uc, refData, ver);
    var e := CompareJson(ResponseOrEmpty(refData), ResponseOrEmpty(ver)).error;
    HandledOnObject(a.st, uc, e);
    var fields := st.entries[uc].fields;
    assert fields["result" := VersionRecord(ver)]["result" := ErrorRecord(Str(e))]
        == fields["result" := ErrorRecord(Str(e))];
  }

  /** The version phase and the handler only ever write `result`: every
      other field of a dict entry, `http_code` included, is kept. */
  lemma VersionStepKeepsOtherFields(st: State, uc: string, refData: ApiOutcome, ver: ApiOutcome, k: string)
    requires uc in st.entries && st.entries[uc].JObject?
    requires k in st.entries[uc].fields && k != "result"
    ensures var s := VersionStep(st, uc, refData, ver);
      s.st.entries[uc].JObject? && k in s.st.entries[uc].fields
      && s.st.entries[uc].fields[k] == st.entries[uc].fields[k]
  {
    if !IsOk(refData.statusCode) || !IsOk(ver.statusCode) {
      NonOkStatusShortCircuits(st, uc, refData, ver);
    } else if CompareJson(ResponseOrEmpty(refData), ResponseOrEmpty(ver)).Success? {
      BothOkCompares(st, uc, refData, ver);
    } else {
      BothOkComparisonRaises(st, uc, refData, ver);
    }
  }

  /** A 200 reply with an empty body has `response` None, so the comparison
      raises on `None.keys()`; the handler then replaces the freshly written
      `result` by that error, while `http_code` stays 200. */
  lemma EmptyBodyRecordedAsError(st: State, uc: string, versionBody: Json)
    requires uc in st.entries && st.entries[uc].JObject? && Truthy(st.entries[uc])
    requires var fields := st.entries[uc].fields; !("result" in fields && "http_code" in fields)
    ensures var s := Processed(st, uc, Reply(JInt(200), JNull), Reply(JInt(200), versionBody));
      && s.outcome == Returned(1)
      && uc in s.st.entries && s.st.entries[uc].JObject?
      && "result" in s.st.entries[uc].fields && "http_code" in s.st.entries[uc].fields
      && s.st.entries[uc].fields["result"] == ErrorRecord(Str(NoAttribute("NoneType", "keys")))
      && s.st.entries[uc].fields["http_code"] == JInt(200)
      && |s.st.flushes| == |st.flushes| + 3
  {
    var ref, ver := Reply(JInt(200), JNull), Reply(JInt(200), versionBody);
    ReferenceFresh(st, uc, ref);
    var p := ReferenceOutcome(st, uc, ref);
    assert CompareJson(JNull, ResponseOrEmpty(ver)) == Failure(NoKeys(JNull));
    BothOkComparisonRaises(p.st, uc, ref, ver);
  }

  /** A missing use case: the handler writes into a fresh dict, so the store
      is rewritten unchanged; no server is called. */
  lemma MissingUseCase(st: State, uc: string, ref: ApiOutcome, ver: ApiOutcome)
    requires uc !in st.entries
    ensures Processed(st, uc, ref, ver) == Step(Returned(1), State(st.entries, st.flushes + [st.entries], st.calls))
  {
  }

  /** An empty dict entry is "not found": its `result` becomes the error. */
  lemma EmptyEntry(st: State, uc: string, ref: ApiOutcome, ver: ApiOutcome)
    requires uc in st.entries && st.entries[uc] == JObject(map[])
    ensures var entries := st.entries[uc := JObject(map["result" := ErrorRecord(Str(NotFound(uc)))])];
      Processed(st, uc, ref, ver) == Step(Returned(1), State(entries, st.flushes + [entries], st.calls))
  {
  }

  /** An entry that is not a dict is never changed or written: a falsy one
      raises out of the handler itself, a truthy one either does too or ends
      with 1 at the status check. */
  lemma NonObjectEntry(st: State, uc: string, ref: ApiOutcome, ver: ApiOutcome)
    requires uc in st.entries && !st.entries[uc].JObject?
    ensures var s := Processed(st, uc, ref, ver);
      && s.st.entries == st.entries && s.st.flushes == st.flushes
      && (s.outcome.Escaped? || s.outcome == Returned(1))
      && (!Truthy(st.entries[uc]) ==> s.outcome.Escaped? && s.st == st)
  {
    var p := ReferenceOutcome(st, uc, ref);
    if p.Continue? {
      var a := VersionOutcome(p.st, uc, p.refData, ver);
      if a.Raised? {
        assert a.st.entries[uc] == st.entries[uc];
      }
    }
  }

  /** Line 101 makes the last version response the new baseline: after one
      run with a cached pair and a 200 dict reply, `result` holds that reply
      (`http_code` unchanged), and a second run against the same reply finds
      no difference and changes nothing. */
  lemma LastVersionBecomesBaseline(st: State, uc: string, ref: ApiOutcome, ref': ApiOutcome,
                                   status: Json, body: map<string, Json>)
    requires uc in st.entries && st.entries[uc].JObject?
    requires var fields := st.entries[uc].fields;
      && "result" in fields && "http_code" in fields
      && IsOk(fields["http_code"]) && fields["result"].JObject?
    requires IsOk(status)
    ensures var fields, s1 := st.entries[uc].fields, Processed(st, uc, ref, Reply(status, JObject(body)));
      && s1.st.entries == st.entries[uc := JObject(fields["result" := JObject(body)])]
      && var s2 := Processed(s1.st, uc, ref', Reply(status, JObject(body)));
         s2.outcome == Returned(0) && s2.st.entries == s1.st.entries
  {
    var fields := st.entries[uc].fields;
    var ver := Reply(status, JObject(body));
    CachedPairSkipsReference(st, uc, ref, ref, ver);
    BothOkCompares(st, uc, Reply(fields["http_code"], fields["result"]), ver);
    var s1 := Processed(st, uc, ref, ver);
    var fields1 := fields["result" := JObject(body)];
    assert s1.st.entries[uc] == JObject(fields1);
    CachedPairSkipsReference(s1.st, uc, ref', ref', ver);
    SelfYieldsNone(body);
    BothOkCompares(s1.st, uc, Reply(fields1["http_code"], fields1["result"]), ver);
    assert fields1["result" := JObject(body)] == fields1;
  }

  /** First run on `{"uc1": {"payload": {"x": 1}}}` with both servers
      answering 200 `{"y": 1}`: the reply is cached and nothing differs. */
  lemma FirstRunScenario()
    ensures var payload := JObject(map["x" := JInt(1)]);
      var reply := Reply(JInt(200), JObject(map["y" := JInt(1)]));
      var s := Processed(State(map["uc1" := JObject(map["payload" := payload])], [], []), "uc1", reply, reply);
      && s.outcome == Returned(0)
      && s.st.entries == map["uc1" := JObject(map["payload" := payload,
                                                   "result" := JObject(map["y" := JInt(1)]),
                                                   "http_code" := JInt(200)])]
  {
    var payload := JObject(map["x" := JInt(1)]);
    var reply := Reply(JInt(200), JObject(map["y" := JInt(1)]));
    var st := State(map["uc1" := JObject(map["payload" := payload])], [], []);
    ReferenceFresh(st, "uc1", reply);
    var p := ReferenceOutcome(st, "uc1", reply);
    SelfYieldsNone(map["y" := JInt(1)]);
    BothOkCompares(p.st, "uc1", reply, reply);
    assert map["payload" := payload]["result" := reply.response]["http_code" := JInt(200)]["result" := reply.response]
        == map["payload" := payload, "result" := reply.response, "http_code" := JInt(200)];
  }

  /** Same store, reference answering 500 with a JSON body: the reply still
      has a `response` key, so `result` and `http_code` 500 are stored. */
  lemma ReferenceServerErrorScenario(body: Json, version: ApiOutcome)
    ensures var payload := JObject(map["x" := JInt(1)]);
      var s := Processed(State(map["uc1" := JObject(map["payload" := payload])], [], []), "uc1",
                         Reply(JInt(500), body), version);
      && s.outcome == Returned(1)
      && s.st.entries == map["uc1" := JObject(map["payload" := payload, "result" := body, "http_code" := JInt(500)])]
  {
    var st := State(map["uc1" := JObject(map["payload" := JObject(map["x" := JInt(1)])])], [], []);
    ReferenceFresh(st, "uc1", Reply(JInt(500), body));
    var p := ReferenceOutcome(st, "uc1", Reply(JInt(500), body));
    NonOkStatusShortCircuits(p.st, "uc1", Reply(JInt(500), body), version);
  }
}
