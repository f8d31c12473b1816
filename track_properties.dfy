/**
 * What the `/track` handler promises, proved about its specification
 * functions: the first usable carrier wins, nothing is called after it, an
 * exhausted loop reports the most recently thrown error, and the payloads
 * carry the fields the source builds.
 */
module TrackProperties {
  import opened Wrappers
  import opened TrackingFormat
  import opened Upstream
  import opened TrackHandler

  /** `i` is the first position in `cs` whose call returns a usable body. */
  ghost predicate IsFirstGood(number: string, cs: seq<string>, upstream: Oracle, i: int) {
    && 0 <= i < |cs|
    && IsGood(upstream(number, cs[i]))
    && forall j :: 0 <= j < i ==> !IsGood(upstream(number, cs[j]))
  }

  /**
   * Reference definition of the error the loop ends with: the error thrown by
   * the LAST carrier in `cs` whose call threw, read from the back.
   */
  function LastThrown(number: string, cs: seq<string>, upstream: Oracle): Option<UpstreamError>
    decreases |cs|
  {
    if cs == [] then None
    else
      match upstream(number, cs[|cs| - 1])
      case Threw(e) => Some(e)
      case Returned(_) => LastThrown(number, cs[..|cs| - 1], upstream)
  }

  /** `LastThrown` picks the thrown error at the highest position, and is `None` only if no call threw. */
  lemma {:induction false} LastThrownIsLast(number: string, cs: seq<string>, upstream: Oracle)
    ensures LastThrown(number, cs, upstream).Some? ==>
      exists j :: 0 <= j < |cs| && upstream(number, cs[j]) == Threw(LastThrown(number, cs, upstream).value)
                  && forall k :: j < k < |cs| ==> !upstream(number, cs[k]).Threw?
    ensures LastThrown(number, cs, upstream).None? ==>
      forall j :: 0 <= j < |cs| ==> !upstream(number, cs[j]).Threw?
    decreases |cs|
  {
    if cs != [] {
      var n := |cs| - 1;
      var init := cs[..n];
      if !upstream(number, cs[n]).Threw? {
        LastThrownIsLast(number, init, upstream);
        if LastThrown(number, cs, upstream).Some? {
          var j :| 0 <= j < |init| && upstream(number, init[j]) == Threw(LastThrown(number, init, upstream).value)
                   && forall k :: j < k < |init| ==> !upstream(number, init[k]).Threw?;
          assert cs[j] == init[j];
          assert forall k :: j < k < |cs| ==> !upstream(number, cs[k]).Threw? by {
            forall k | j < k < |cs| ensures !upstream(number, cs[k]).Threw? {
              if k < n { assert cs[k] == init[k]; }
            }
          }
        } else {
          forall j | 0 <= j < |cs| ensures !upstream(number, cs[j]).Threw? {
            if j < n { assert cs[j] == init[j]; }
          }
        }
      }
    }
  }

  /** Reading `LastThrown` from the front: a later throw hides an earlier one. */
  lemma {:induction false} LastThrownCons(number: string, x: string, cs: seq<string>, upstream: Oracle)
    ensures LastThrown(number, [x] + cs, upstream) ==
      if LastThrown(number, cs, upstream).Some? then LastThrown(number, cs, upstream)
      else if upstream(number, x).Threw? then Some(upstream(number, x).err)
      else None
    decreases |cs|
  {
    var xs := [x] + cs;
    if cs == [] {
      assert xs[..0] == [];
    } else {
      var n := |cs| - 1;
      assert xs[|xs| - 1] == cs[n];
      assert xs[..|xs| - 1] == [x] + cs[..n];
      LastThrownCons(number, x, cs[..n], upstream);
    }
  }

  /** The first usable carrier is the one the loop returns, with its body. */
  lemma {:induction false} ProbeFirstGood(number: string, cs: seq<string>, upstream: Oracle,
                                          lastError: Option<UpstreamError>, i: int)
    requires IsFirstGood(number, cs, upstream, i)
    ensures Probe(number, cs, upstream, lastError) == Found(cs[i], upstream(number, cs[i]).data.value)
    decreases i
  {
    if i > 0 {
      assert !IsGood(upstream(number, cs[0]));
      var o := upstream(number, cs[0]);
      var next := if o.Threw? then Some(o.err) else lastError;
      assert IsFirstGood(number, cs[1..], upstream, i - 1) by {
        assert cs[1..][i - 1] == cs[i];
        forall j | 0 <= j < i - 1 ensures !IsGood(upstream(number, cs[1..][j])) {
          assert cs[1..][j] == cs[j + 1];
        }
      }
      ProbeFirstGood(number, cs[1..], upstream, next, i - 1);
    }
  }

  /** With no usable carrier, the loop ends with the last thrown error, or the error it started with. */
  lemma {:induction false} ProbeExhausted(number: string, cs: seq<string>, upstream: Oracle,
                                          lastError: Option<UpstreamError>)
    requires forall i :: 0 <= i < |cs| ==> !IsGood(upstream(number, cs[i]))
    ensures Probe(number, cs, upstream, lastError) ==
      Exhausted(if LastThrown(number, cs, upstream).Some? then LastThrown(number, cs, upstream) else lastError)
    decreases |cs|
  {
    if cs != [] {
      var o := upstream(number, cs[0]);
      assert !IsGood(o);
      var next := if o.Threw? then Some(o.err) else lastError;
      assert forall i :: 0 <= i < |cs[1..]| ==> !IsGood(upstream(number, cs[1..][i])) by {
        forall i | 0 <= i < |cs[1..]| ensures !IsGood(upstream(number, cs[1..][i])) {
          assert cs[1..][i] == cs[i + 1];
        }
      }
      ProbeExhausted(number, cs[1..], upstream, next);
      assert cs == [cs[0]] + cs[1..];
      LastThrownCons(number, cs[0], cs[1..], upstream);
    }
  }

  /** If some carrier is usable, a first usable one exists. */
  lemma {:induction false} FirstGoodExists(number: string, cs: seq<string>, upstream: Oracle, k: int)
    requires 0 <= k < |cs| && IsGood(upstream(number, cs[k]))
    ensures exists i :: IsFirstGood(number, cs, upstream, i)
    decreases k
  {
    if exists j :: 0 <= j < k && IsGood(upstream(number, cs[j])) {
      var j :| 0 <= j < k && IsGood(upstream(number, cs[j]));
      FirstGoodExists(number, cs, upstream, j);
    } else {
      assert IsFirstGood(number, cs, upstream, k);
    }
  }

  /** Every call before the last one the loop makes got no usable body. */
  lemma {:induction false} AttemptsUnusableBeforeLast(number: string, cs: seq<string>, upstream: Oracle)
    ensures forall j :: 0 <= j < |Attempts(number, cs, upstream)| - 1 ==>
              !IsGood(upstream(number, Attempts(number, cs, upstream)[j]))
    decreases |cs|
  {
    if cs != [] && !IsGood(upstream(number, cs[0])) {
      AttemptsUnusableBeforeLast(number, cs[1..], upstream);
      var rest := Attempts(number, cs[1..], upstream);
      var a := Attempts(number, cs, upstream);
      assert a == [cs[0]] + rest;
      forall j | 0 <= j < |a| - 1 ensures !IsGood(upstream(number, a[j])) {
        if j > 0 { assert a[j] == rest[j - 1]; }
      }
    }
  }

  /** The last call is the carrier found when the loop finds one; an exhausted loop calls every carrier. */
  lemma {:induction false} AttemptsEnd(number: string, cs: seq<string>, upstream: Oracle,
                                       lastError: Option<UpstreamError>)
    ensures Probe(number, cs, upstream, lastError).Found? ==>
              && Attempts(number, cs, upstream) != []
              && Probe(number, cs, upstream, lastError).carrier == Attempts(number, cs, upstream)[|Attempts(number, cs, upstream)| - 1]
    ensures Probe(number, cs, upstream, lastError).Exhausted? ==> Attempts(number, cs, upstream) == cs
    decreases |cs|
  {
    if cs != [] {
      var o := upstream(number, cs[0]);
      if !IsGood(o) {
        var next := if o.Threw? then Some(o.err) else lastError;
        AttemptsEnd(number, cs[1..], upstream, next);
        var rest := Attempts(number, cs[1..], upstream);
        var a := Attempts(number, cs, upstream);
        assert a == [cs[0]] + rest;
        assert Probe(number, cs, upstream, lastError) == Probe(number, cs[1..], upstream, next);
        if Probe(number, cs, upstream, lastError).Found? {
          assert a[|a| - 1] == rest[|rest| - 1];
        } else {
          assert cs == [cs[0]] + cs[1..];
        }
      }
    }
  }

  /**
   * The calls the loop makes: a prefix of the carrier list, none of them usable
   * except possibly the last, which is the usable carrier found when the loop
   * finds one, and the whole list when it finds none.
   */
  lemma AttemptsShape(number: string, cs: seq<string>, upstream: Oracle, lastError: Option<UpstreamError>)
    ensures |Attempts(number, cs, upstream)| <= |cs|
    ensures Attempts(number, cs, upstream) == cs[..|Attempts(number, cs, upstream)|]
    ensures forall j :: 0 <= j < |Attempts(number, cs, upstream)| - 1 ==>
              !IsGood(upstream(number, Attempts(number, cs, upstream)[j]))
    ensures Probe(number, cs, upstream, lastError).Found? ==>
              && Attempts(number, cs, upstream) != []
              && Probe(number, cs, upstream, lastError).carrier == Attempts(number, cs, upstream)[|Attempts(number, cs, upstream)| - 1]
              && IsGood(upstream(number, Probe(number, cs, upstream, lastError).carrier))
    ensures Probe(number, cs, upstream, lastError).Exhausted? ==> Attempts(number, cs, upstream) == cs
  {
    AttemptsUnusableBeforeLast(number, cs, upstream);
    AttemptsEnd(number, cs, upstream, lastError);
  }

  // ---- One request ----

  /**
   * A request is rejected exactly when the number is missing or malformed. The
   * 400 payload offers `ENE083992448MY` as a valid example, which the validator
   * itself rejects.
   */
  lemma TrackRejectsIff(number: Option<string>, upstream: Oracle)
    ensures Track(number, upstream).Rejected? <==> number.None? || !IsValidNumber(number.value)
    ensures Track(number, upstream).Rejected? ==>
      && HttpStatus(Track(number, upstream)) == 400
      && Track(number, upstream).error == INVALID_FORMAT
      && Track(number, upstream).pattern == PATTERN_TEXT
      && Track(number, upstream).example == DOCUMENTED_EXAMPLE
      && !IsValidNumber(Track(number, upstream).example)
  {
    DocumentedExampleRejected();
    var r := Track(number, upstream);
    if !(number.None? || !IsValidNumber(number.value)) {
      match Probe(number.value, CARRIERS, upstream, None)
      case Found(c, b) => assert r.Tracked?;
      case Exhausted(e) => assert r.Failed?;
    }
  }

  /** A missing or malformed number never reaches the upstream API: no call is made and the oracle cannot affect the answer. */
  lemma RejectionIgnoresUpstream(number: Option<string>, upstream: Oracle, other: Oracle)
    requires number.None? || !IsValidNumber(number.value)
    ensures Consulted(number, upstream) == []
    ensures Track(number, upstream) == Track(number, other)
  {
  }

  /** Carriers are called in list order, at most four times, and never after a usable answer. */
  lemma AttemptsBounded(number: Option<string>, upstream: Oracle)
    ensures |Consulted(number, upstream)| <= 4
    ensures Consulted(number, upstream) == CARRIERS[..|Consulted(number, upstream)|]
    ensures number.Some? ==> forall j :: 0 <= j < |Consulted(number, upstream)| - 1 ==>
              !IsGood(upstream(number.value, Consulted(number, upstream)[j]))
  {
    if number.Some? && IsValidNumber(number.value) {
      AttemptsShape(number.value, CARRIERS, upstream, None);
    }
  }

  /** The response is a success exactly when some carrier gives a usable answer. */
  lemma TrackSucceedsIff(s: string, upstream: Oracle)
    requires IsValidNumber(s)
    ensures Track(Some(s), upstream).Tracked? <==> exists i :: 0 <= i < |CARRIERS| && IsGood(upstream(s, CARRIERS[i]))
  {
    if exists i :: 0 <= i < |CARRIERS| && IsGood(upstream(s, CARRIERS[i])) {
      var k :| 0 <= k < |CARRIERS| && IsGood(upstream(s, CARRIERS[k]));
      FirstGoodExists(s, CARRIERS, upstream, k);
      var i :| IsFirstGood(s, CARRIERS, upstream, i);
      ProbeFirstGood(s, CARRIERS, upstream, None, i);
    } else {
      ProbeExhausted(s, CARRIERS, upstream, None);
    }
  }

  /**
   * The success payload: for the first usable carrier at position `i`, the
   * number echoed back, the fixed carrier label, the upstream status or
   * 'Dalam proses', the upstream events or none, that carrier as
   * `carrierUsed`, and exactly the carriers up to it called.
   */
  lemma TrackFirstGood(s: string, upstream: Oracle, i: int)
    requires IsValidNumber(s)
    requires IsFirstGood(s, CARRIERS, upstream, i)
    ensures var r := Track(Some(s), upstream);
            var body := upstream(s, CARRIERS[i]).data.value;
            && r.Tracked? && HttpStatus(r) == 200
            && r.trackingNumber == s
            && r.carrier == CARRIER_LABEL
            && r.carrierUsed == CARRIERS[i]
            && (r.status == if body.status.Some? && body.status.value != "" then body.status.value else DEFAULT_STATUS)
            && (r.events == if body.events.Some? then body.events.value else [])
    ensures Consulted(Some(s), upstream) == CARRIERS[..i + 1]
  {
    ProbeFirstGood(s, CARRIERS, upstream, None, i);
    AttemptsShape(s, CARRIERS, upstream, None);
    CarriersDistinct();
    var a := Attempts(s, CARRIERS, upstream);
    assert a != [] && a[|a| - 1] == CARRIERS[i];
    assert a[|a| - 1] == CARRIERS[|a| - 1];
    assert |a| - 1 == i;
  }

  /** On success, `carrierUsed` is a usable carrier and every carrier before it threw, returned no body, or flagged an error. */
  lemma TrackedIsFirstGood(s: string, upstream: Oracle)
    requires IsValidNumber(s)
    requires Track(Some(s), upstream).Tracked?
    ensures exists i ::
              && 0 <= i < |CARRIERS|
              && CARRIERS[i] == Track(Some(s), upstream).carrierUsed
              && IsGood(upstream(s, CARRIERS[i]))
              && forall j :: 0 <= j < i ==>
                   (upstream(s, CARRIERS[j]).Threw? || upstream(s, CARRIERS[j]).data.None?
                    || upstream(s, CARRIERS[j]).data.value.errorFlag)
  {
    TrackSucceedsIff(s, upstream);
    var k :| 0 <= k < |CARRIERS| && IsGood(upstream(s, CARRIERS[k]));
    FirstGoodExists(s, CARRIERS, upstream, k);
    var i :| IsFirstGood(s, CARRIERS, upstream, i);
    TrackFirstGood(s, upstream, i);
  }

  /**
   * When no carrier is usable, all four are called and the response is the
   * error payload of the most recently thrown error, or of the generic error
   * if none threw; its status is that error's response status, 500 without one.
   */
  lemma TrackAllFailed(s: string, upstream: Oracle)
    requires IsValidNumber(s)
    requires forall i :: 0 <= i < |CARRIERS| ==> !IsGood(upstream(s, CARRIERS[i]))
    ensures Track(Some(s), upstream) == ErrorPayload(FinalError(LastThrown(s, CARRIERS, upstream)))
    ensures HttpStatus(Track(Some(s), upstream)) ==
      match LastThrown(s, CARRIERS, upstream)
      case None => 500
      case Some(e) => if e.response.Some? && e.response.value.status != 0 then e.response.value.status else 500
    ensures Consulted(Some(s), upstream) == CARRIERS
  {
    var last := LastThrown(s, CARRIERS, upstream);
    ProbeExhausted(s, CARRIERS, upstream, None);
    assert Probe(s, CARRIERS, upstream, None) == Exhausted(last);
    AttemptsEnd(s, CARRIERS, upstream, None);
    var r := ErrorPayload(FinalError(last));
    assert Track(Some(s), upstream) == r;
    assert HttpStatus(r) == ErrorStatus(FinalError(last));
  }

  /** If every carrier answers with an error body or no body (nothing throws), the generic failure is reported with status 500. */
  lemma OnlyErrorBodies(s: string, upstream: Oracle)
    requires IsValidNumber(s)
    requires forall i :: 0 <= i < |CARRIERS| ==> upstream(s, CARRIERS[i]).Returned? && !IsGood(upstream(s, CARRIERS[i]))
    ensures Track(Some(s), upstream) ==
      Failed(500, GENERIC_MESSAGE, Details(ErrorMessage(ALL_FAILED), GENERIC_SUGGESTION), None)
  {
    TrackAllFailed(s, upstream);
    LastThrownIsLast(s, CARRIERS, upstream);
  }

  /** A 404 and only a 404 gets the not-found message and a top-level suggestion; `details.suggestion` stays generic. */
  lemma TrackNotFoundIff(number: Option<string>, upstream: Oracle)
    requires Track(number, upstream).Failed?
    ensures var r := Track(number, upstream);
            && (r.message == NOT_FOUND_MESSAGE <==> r.statusCode == 404)
            && (r.suggestion.Some? <==> r.statusCode == 404)
            && (r.suggestion.Some? ==> r.suggestion.value == NOT_FOUND_SUGGESTION)
            && r.details.suggestion == GENERIC_SUGGESTION
            && r.statusCode != 0
  {
  }

  /** The four carrier codes are pairwise different. */
  lemma CarriersDistinct()
    ensures forall j, k :: 0 <= j < k < |CARRIERS| ==> CARRIERS[j] != CARRIERS[k]
  {
    assert |CARRIERS[0]| == 12 && |CARRIERS[1]| == 7 && |CARRIERS[2]| == 7 && |CARRIERS[3]| == 13;
    assert CARRIERS[1][0] == 'p' && CARRIERS[2][0] == 'm';
  }

  /**
   * If exactly one carrier code is usable, that is the one reported, wherever
   * it stands in the list; for "poslaju", the second entry, exactly two calls are made.
   */
  lemma SoleGoodCarrierUsed(s: string, upstream: Oracle, c: string)
    requires IsValidNumber(s) && c in CARRIERS
    requires forall d :: IsGood(upstream(s, d)) <==> d == c
    ensures Track(Some(s), upstream).Tracked? && Track(Some(s), upstream).carrierUsed == c
    ensures c == "poslaju" ==> Consulted(Some(s), upstream) == ["pos-malaysia", "poslaju"]
  {
    CarriersDistinct();
    var i :| 0 <= i < |CARRIERS| && CARRIERS[i] == c;
    assert IsFirstGood(s, CARRIERS, upstream, i);
    TrackFirstGood(s, upstream, i);
  }
}
