/**
 * The state of one Stratum V1 server session as a value, and the effect of
 * each server callback on it. A session is driven by the callbacks the
 * dispatch loop invokes, one after another; `Run` replays such a sequence.
 * The lemmas here speak about every sequence of callbacks, so they state what
 * holds for a session whatever the miner sends.
 */
module Session {
  import opened Wrappers
  import opened Messages

  /** What an `Sv1Handler` holds: the block template and the authorization flag. */
  datatype SessionState<Template> = SessionState(template: Template, authorized: bool)

  /** The state of a newly constructed handler: not authorized. */
  function Fresh<Template>(template: Template): SessionState<Template>
  {
    SessionState(template, false)
  }

  /** One server callback with its arguments. The callbacks whose body is
      `todo!()` are absent: invoking any of them ends the session. */
  datatype Call<Template> =
    | HandleConfigure(configure: ConfigureRequest)
    | HandleSubscribe(subscribe: SubscribeRequest)
    | HandleAuthorize(authorize: AuthorizeRequest)
    | HandleSubmit(submit: SubmitRequest)
    | IsAuthorized(queriedName: string)
    | Authorize(name: string)
    | SetExtranonce1(extranonce1: Option<seq<bv8>>)
    | SetExtranonce2Size(extranonce2Size: Option<nat>)
    | SetVersionRollingMask(mask: Option<bv32>)
    | SetVersionRollingMinBit(minBit: Option<bv32>)
    | UpdateTemplate(next: Template)

  /** Whether a callback may change the session state at all. */
  predicate Mutates<Template>(c: Call<Template>)
  {
    c.Authorize? || c.UpdateTemplate?
  }

  /** The state after one callback. */
  function Apply<Template>(s: SessionState<Template>, c: Call<Template>): (t: SessionState<Template>)
    ensures s.authorized ==> t.authorized
    ensures t.authorized ==> s.authorized || c.Authorize?
    ensures !Mutates(c) ==> t == s
  {
    match c
    case Authorize(_) => s.(authorized := true)
    case UpdateTemplate(next) => s.(template := next)
    case _ => s
  }

  /** The state after a sequence of callbacks, the first one first. */
  function Run<Template>(s: SessionState<Template>, calls: seq<Call<Template>>): SessionState<Template>
    decreases |calls|
  {
    if calls == [] then s else Apply(Run(s, calls[..|calls| - 1]), calls[|calls| - 1])
  }

  /** Running two sequences one after the other is running their concatenation. */
  lemma {:induction false} RunAppend<Template>(s: SessionState<Template>, first: seq<Call<Template>>, second: seq<Call<Template>>)
    ensures Run(s, first + second) == Run(Run(s, first), second)
    decreases |second|
  {
    if second == [] {
      assert first + second == first;
    } else {
      var last := |second| - 1;
      assert (first + second)[..|first + second| - 1] == first + second[..last];
      RunAppend(s, first, second[..last]);
    }
  }

  /** A session is authorized after a sequence of callbacks exactly when it
      was authorized before or one of them was `authorize`. */
  lemma {:induction false} AuthorizedAfterRun<Template>(s: SessionState<Template>, calls: seq<Call<Template>>)
    ensures Run(s, calls).authorized <==>
      s.authorized || exists i :: 0 <= i < |calls| && calls[i].Authorize?
    decreases |calls|
  {
    if calls != [] {
      var prefix := calls[..|calls| - 1];
      AuthorizedAfterRun(s, prefix);
      if Run(s, calls).authorized && !s.authorized && !calls[|calls| - 1].Authorize? {
        var i :| 0 <= i < |prefix| && prefix[i].Authorize?;
        assert calls[i] == prefix[i];
      }
      if exists i :: 0 <= i < |calls| && calls[i].Authorize? {
        var i :| 0 <= i < |calls| && calls[i].Authorize?;
        if i < |calls| - 1 {
          assert prefix[i] == calls[i];
        }
      }
    }
  }

  /** Authorization is monotonic: whatever callbacks follow, an authorized
      session stays authorized. */
  lemma AuthorizationMonotonic<Template>(s: SessionState<Template>, before: seq<Call<Template>>, after: seq<Call<Template>>)
    requires Run(s, before).authorized
    ensures Run(s, before + after).authorized
  {
    RunAppend(s, before, after);
    AuthorizedAfterRun(Run(s, before), after);
  }

  /** A handler built from a template is unauthorized until `authorize` has
      been called, and authorized from then on, so the authorization gate
      (which answers `!authorized`) grants exactly the requests made before
      the first `authorize`. */
  lemma {:induction false} GateOpenUntilAuthorize<Template>(template: Template, calls: seq<Call<Template>>)
    ensures !Run(Fresh(template), calls).authorized <==>
      forall i :: 0 <= i < |calls| ==> !calls[i].Authorize?
  {
    AuthorizedAfterRun(Fresh(template), calls);
  }

  /** Callbacks other than `authorize` and `update_template` leave the
      session exactly as it was. */
  lemma {:induction false} NonMutatingCallsPreserveState<Template>(s: SessionState<Template>, calls: seq<Call<Template>>)
    requires forall i :: 0 <= i < |calls| ==> !Mutates(calls[i])
    ensures Run(s, calls) == s
    decreases |calls|
  {
    if calls != [] {
      NonMutatingCallsPreserveState(s, calls[..|calls| - 1]);
    }
  }

  /** The template a session holds is the one given by its last template
      update, or the original one if there was none. */
  lemma {:induction false} TemplateAfterRun<Template>(s: SessionState<Template>, calls: seq<Call<Template>>, k: int)
    requires -1 <= k < |calls|
    requires k >= 0 ==> calls[k].UpdateTemplate?
    requires forall j :: k < j < |calls| ==> !calls[j].UpdateTemplate?
    ensures Run(s, calls).template == if k < 0 then s.template else calls[k].next
    decreases |calls|
  {
    if calls != [] {
      var last := |calls| - 1;
      if k < last {
        TemplateAfterRun(s, calls[..last], k);
      }
    }
  }

  /** Template updates never touch authorization: the flag after a sequence
      of callbacks is the one after the same sequence without its updates. */
  lemma {:induction false} TemplateUpdatesKeepAuthorization<Template>(s: SessionState<Template>, calls: seq<Call<Template>>)
    ensures Run(s, calls).authorized == Run(s, WithoutUpdates(calls)).authorized
    decreases |calls|
  {
    if calls != [] {
      var last := |calls| - 1;
      TemplateUpdatesKeepAuthorization(s, calls[..last]);
      assert calls == calls[..last] + [calls[last]];
      WithoutUpdatesAppend(calls[..last], calls[last]);
      if calls[last].UpdateTemplate? {
        assert WithoutUpdates(calls) == WithoutUpdates(calls[..last]) + [];
        assert WithoutUpdates(calls) == WithoutUpdates(calls[..last]);
        assert Run(s, calls) == Apply(Run(s, calls[..last]), calls[last]);
      } else {
        var w := WithoutUpdates(calls[..last]) + [calls[last]];
        assert w[..|w| - 1] == WithoutUpdates(calls[..last]);
      }
    }
  }

  /** `calls` with its template updates removed. */
  function WithoutUpdates<Template>(calls: seq<Call<Template>>): seq<Call<Template>>
  {
    if calls == [] then []
    else if calls[0].UpdateTemplate? then WithoutUpdates(calls[1..])
    else [calls[0]] + WithoutUpdates(calls[1..])
  }

  lemma {:induction false} WithoutUpdatesAppend<Template>(calls: seq<Call<Template>>, c: Call<Template>)
    ensures WithoutUpdates(calls + [c]) ==
      WithoutUpdates(calls) + (if c.UpdateTemplate? then [] else [c])
    decreases |calls|
  {
    if calls == [] {
      assert calls + [c] == [c];
    } else {
      assert (calls + [c])[1..] == calls[1..] + [c];
      WithoutUpdatesAppend(calls[1..], c);
    }
  }
}
