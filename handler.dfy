/**
 * `Sv1Handler`, the per-connection Stratum V1 server session of the solo
 * mining bridge: its two fields and the server callbacks it implements.
 * The block template is opaque here (the type parameter `Template`): how it
 * is built and refreshed belongs to the template code, which is not part of
 * this model.
 */
module Handler {
  import opened Wrappers
  import opened Messages
  import opened Session

  /** Callbacks without a `modifies` clause leave the handler unchanged; the
      two that return nothing state it as their contract. */
  class Sv1Handler<Template> {
    var template: Template
    var isAuthorized: bool

    /** The handler's state as a value, the view the lemmas of `Session` speak about. */
    ghost function State(): SessionState<Template>
      reads this
    {
      SessionState(template, isAuthorized)
    }

    /** A handler around a template that was built successfully: not authorized yet. */
    constructor (template: Template)
      ensures State() == Fresh(template)
    {
      this.template := template;
      isAuthorized := false;
    }

    /** `Sv1Handler::new`: `built` is what building the template from the
        network, signature and payout address gave; its error is passed on. */
    static method New<E>(built: Result<Template, E>) returns (r: Result<Sv1Handler<Template>, E>)
      ensures r.Failure? <==> built.Failure?
      ensures r.Failure? ==> r.error == built.error
      ensures r.Success? ==> fresh(r.value) && r.value.State() == Fresh(built.value)
    {
      match built
      case Failure(e) =>
        r := Failure(e);
      case Success(t) =>
        var handler := new Sv1Handler(t);
        r := Success(handler);
    }

    /** `update_template`: the template is refreshed from a block-template
        result by the template's own `update`; authorization is untouched. */
    method UpdateTemplate<Gbt>(gbtResult: Gbt, update: (Template, Gbt) -> Template)
      modifies this
      ensures template == update(old(template), gbtResult)
      ensures isAuthorized == old(isAuthorized)
      ensures State() == Apply(old(State()), Call.UpdateTemplate(update(old(template), gbtResult)))
    {
      template := update(template, gbtResult);
    }

    /** `mining.configure`: grants the requested version-rolling bits that the
        server supports, and no bits when none were requested; the minimum bit
        count is passed on, 0 when absent; the minimum-difficulty extension is
        declined. `paramsValid` is the check that building the parameters
        performs; the session aborts when it fails, so it is required here. */
    method HandleConfigure(request: ConfigureRequest, paramsValid: (bv32, bv32) -> bool)
      returns (versionRolling: Option<VersionRollingParams>, minimumDifficulty: Option<bool>)
      requires paramsValid(NegotiatedMask(request.versionRollingMask), request.versionRollingMinBitCount.GetOr(0))
      ensures versionRolling == Some(VersionRollingParams(
        NegotiatedMask(request.versionRollingMask), request.versionRollingMinBitCount.GetOr(0)))
      ensures minimumDifficulty == Some(false)
    {
      var mask := match request.versionRollingMask
        case Some(m) => Some(SupportedBits(m))
        case None => None;
      var minBit := request.versionRollingMinBitCount;
      versionRolling := Some(VersionRollingParams(mask.GetOr(0), minBit.GetOr(0)));
      minimumDifficulty := Some(false);
    }

    /** `mining.subscribe`: whatever the request, two subscriptions, first to
        difficulty changes and then to job notifications, under one identifier. */
    method HandleSubscribe(request: SubscribeRequest) returns (subscriptions: seq<(string, string)>)
      ensures |subscriptions| == 2
      ensures subscriptions[0].0 == "mining.set_difficulty"
      ensures subscriptions[1].0 == "mining.notify"
      ensures subscriptions[0].1 == subscriptions[1].1 == SubscriptionId
    {
      var setDifficulty := ("mining.set_difficulty", SubscriptionId);
      var notify := ("mining.notify", SubscriptionId);
      subscriptions := [setDifficulty, notify];
    }

    /** `mining.authorize`: the request is granted exactly when the session
        is not authorized yet, whatever the worker name. */
    method HandleAuthorize(request: AuthorizeRequest) returns (granted: bool)
      ensures granted <==> !State().authorized
    {
      var authorized := IsAuthorized(request.name);
      granted := !authorized;
    }

    /** `mining.submit`: every share is accepted. */
    method HandleSubmit(request: SubmitRequest) returns (accepted: bool)
      ensures accepted
    {
      accepted := true;
    }

    /** Whether the session is authorized, whatever name is asked about. */
    method IsAuthorized(name: string) returns (authorized: bool)
      ensures authorized == State().authorized
    {
      authorized := isAuthorized;
    }

    /** Authorizes the session, whatever the name; the template is untouched. */
    method Authorize(name: string)
      modifies this
      ensures isAuthorized
      ensures template == old(template)
      ensures State() == Apply(old(State()), Call.Authorize(name))
    {
      isAuthorized := true;
    }

    /** Assigns extranonce1: whatever was asked for, the same 24 bytes, all
        zero but bytes 15 and 23, which are 1. */
    method SetExtranonce1(requested: Option<seq<bv8>>) returns (extranonce1: seq<bv8>)
      ensures |extranonce1| == 24
      ensures forall i :: 0 <= i < |extranonce1| ==>
        extranonce1[i] == if i == 15 || i == 23 then 1 else 0
    {
      extranonce1 := Extranonce1Bytes;
    }

    /** Assigns the extranonce2 size: 8 bytes, whatever was asked for. */
    method SetExtranonce2Size(requested: Option<nat>) returns (size: nat)
      ensures size == 8
    {
      size := Extranonce2Size;
    }

    /** Records a version-rolling mask: does nothing. */
    method SetVersionRollingMask(mask: Option<bv32>)
      ensures unchanged(this)
    {
    }

    /** Records a version-rolling minimum bit count: does nothing. */
    method SetVersionRollingMinBit(minBit: Option<bv32>)
      ensures unchanged(this)
    {
    }
  }
}
