/**
 * Webhook registration (`registerWebhooks`). Picqer keeps a table of hooks;
 * for each event the plugin needs, an active hook with the plugin's URL and
 * a name embedding the first four characters of the webhook secret must
 * exist. A hook with the right event and URL but another name is stale: it
 * is deactivated first, because Picqer allows only one active hook per
 * event and address, and then replaced.
 */
module Webhooks {
  import opened Wrappers
  import opened Js
  import opened Config

  const FreeStockChanged: string := "products.free_stock_changed"
  const PicklistsClosed: string := "picklists.closed"

  /** The events the plugin registers, in registration order. */
  const EventsToRegister: seq<string> := [FreeStockChanged, PicklistsClosed]

  datatype Hook = Hook(idhook: int, name: string, event: string, address: string, secret: string, active: bool)

  /** Picqer refuses a second active hook for the same event and address. */
  datatype HookError = DuplicateHook(event: string, address: string)

  /** `${vendureHost}/picqer/hooks/${channelToken}`. */
  function HookUrl(vendureHost: string, channelToken: string): string {
    vendureHost + "/picqer/hooks/" + channelToken
  }

  /** `Vendure ${event} ${secret.slice(0, 4)}`. */
  function WebhookName(event: string, secret: string): (r: string)
    ensures |secret| >= 4 ==> r == "Vendure " + event + " " + secret[..4]
    ensures |secret| < 4 ==> r == "Vendure " + event + " " + secret
  {
    "Vendure " + event + " " + Slice(secret, 4)
  }

  predicate ActiveFor(h: Hook, event: string, address: string) {
    h.active && h.event == event && h.address == address
  }

  /** `hooks.find(h => h.event === event && h.address === address && h.active === true)`. */
  function FindActive(hooks: seq<Hook>, event: string, address: string): (r: Option<Hook>)
    ensures r.None? <==> forall h :: h in hooks ==> !ActiveFor(h, event, address)
    ensures r.Some? ==> r.value in hooks && ActiveFor(r.value, event, address)
  {
    if hooks == [] then None
    else if ActiveFor(hooks[0], event, address) then Some(hooks[0])
    else
      assert forall h :: h in hooks ==> h == hooks[0] || h in hooks[1..];
      FindActive(hooks[1..], event, address)
  }

  /** Picqer's own constraints on its hook table: unique ids, below the next id, one active hook per event and address. */
  ghost predicate WellFormed(hooks: seq<Hook>, nextId: int) {
    (forall i, j :: 0 <= i < j < |hooks| ==> hooks[i].idhook != hooks[j].idhook) &&
    (forall i :: 0 <= i < |hooks| ==> hooks[i].idhook < nextId) &&
    (forall i, j :: 0 <= i < j < |hooks| && hooks[i].active && hooks[j].active ==>
       hooks[i].event != hooks[j].event || hooks[i].address != hooks[j].address)
  }

  /** Under the uniqueness constraint, `find` returns the one active hook for the event and address. */
  lemma FindActiveIsTheActiveHook(hooks: seq<Hook>, nextId: int, h: Hook)
    requires WellFormed(hooks, nextId) && h in hooks && h.active
    ensures FindActive(hooks, h.event, h.address) == Some(h)
  {
    var f := FindActive(hooks, h.event, h.address).value;
    var i :| 0 <= i < |hooks| && hooks[i] == f;
    var j :| 0 <= j < |hooks| && hooks[j] == h;
    assert i == j;
  }

  /** `deactivateHook(idhook)`. */
  function Deactivated(hooks: seq<Hook>, idhook: int): seq<Hook> {
    seq(|hooks|, k requires 0 <= k < |hooks| =>
      if hooks[k].idhook == idhook then hooks[k].(active := false) else hooks[k])
  }

  /** The table after handling one event: `(hooks, nextId)`. */
  function EnsureHook(hooks: seq<Hook>, nextId: int, event: string, url: string, secret: string): (seq<Hook>, int) {
    var name := WebhookName(event, secret);
    var found := FindActive(hooks, event, url);
    if found.Some? && found.value.name == name then
      (hooks, nextId)
    else
      var hs := if found.Some? then Deactivated(hooks, found.value.idhook) else hooks;
      (hs + [Hook(nextId, name, event, url, secret, true)], nextId + 1)
  }

  /** Handling an event either changes nothing or appends one active hook with the current name and the next id. */
  lemma EnsureHookAppends(hooks: seq<Hook>, nextId: int, event: string, url: string, secret: string)
    ensures var r := EnsureHook(hooks, nextId, event, url, secret);
      (r.1 == nextId ==> r.0 == hooks) &&
      (r.1 == nextId || (r.1 == nextId + 1 && |r.0| == |hooks| + 1 &&
        r.0[|hooks|] == Hook(nextId, WebhookName(event, secret), event, url, secret, true)))
  {
  }

  /** The table after handling the first `n` events of `EventsToRegister`. */
  function RegisterUpTo(hooks: seq<Hook>, nextId: int, url: string, secret: string, n: nat): (seq<Hook>, int)
    requires n <= |EventsToRegister|
  {
    if n == 0 then (hooks, nextId)
    else
      var prev := RegisterUpTo(hooks, nextId, url, secret, n - 1);
      EnsureHook(prev.0, prev.1, EventsToRegister[n - 1], url, secret)
  }

  function RegisterAll(hooks: seq<Hook>, nextId: int, url: string, secret: string): (seq<Hook>, int) {
    RegisterUpTo(hooks, nextId, url, secret, |EventsToRegister|)
  }

  /** Deactivating an active hook keeps the table well-formed and leaves no active hook for its event and address. */
  lemma DeactivateEffect(hooks: seq<Hook>, nextId: int, stale: Hook)
    requires WellFormed(hooks, nextId) && stale in hooks && stale.active
    ensures var hs := Deactivated(hooks, stale.idhook);
      WellFormed(hs, nextId) &&
      (forall h :: h in hs ==> !ActiveFor(h, stale.event, stale.address)) &&
      (forall h :: h in hooks && h.idhook != stale.idhook ==> h in hs)
  {
    var hs := Deactivated(hooks, stale.idhook);
    var i :| 0 <= i < |hooks| && hooks[i] == stale;
    forall k | 0 <= k < |hs|
      ensures !ActiveFor(hs[k], stale.event, stale.address)
    {
    }
    forall h | h in hooks && h.idhook != stale.idhook
      ensures h in hs
    {
      var k :| 0 <= k < |hooks| && hooks[k] == h;
      assert hs[k] == h;
    }
  }

  lemma DeactivateClears(hooks: seq<Hook>, nextId: int, stale: Hook)
    requires WellFormed(hooks, nextId) && stale in hooks && stale.active
    ensures FindActive(Deactivated(hooks, stale.idhook), stale.event, stale.address).None?
  {
    DeactivateEffect(hooks, nextId, stale);
  }

  /** Appending a fresh active hook for an event and address that has none keeps the table well-formed. */
  lemma AppendEffect(hs: seq<Hook>, nextId: int, h: Hook)
    requires WellFormed(hs, nextId) && h.idhook == nextId && h.active
    requires forall x :: x in hs ==> !ActiveFor(x, h.event, h.address)
    ensures WellFormed(hs + [h], nextId + 1)
    ensures FindActive(hs + [h], h.event, h.address) == Some(h)
  {
    var r := hs + [h];
    forall i | 0 <= i < |hs|
      ensures r[i] == hs[i] && r[i] in hs
    {
    }
    FindActiveIsTheActiveHook(r, nextId + 1, h);
  }

  /**
   * Handling one event keeps the table well-formed, leaves exactly one
   * active hook for the event and URL, named after the secret, and keeps
   * every hook for another event as it was.
   */
  lemma EnsureHookEffect(hooks: seq<Hook>, nextId: int, event: string, url: string, secret: string)
    requires WellFormed(hooks, nextId)
    ensures var r := EnsureHook(hooks, nextId, event, url, secret);
      WellFormed(r.0, r.1) &&
      FindActive(r.0, event, url).Some? &&
      FindActive(r.0, event, url).value.name == WebhookName(event, secret) &&
      forall h :: h in hooks && h.event != event ==> h in r.0
  {
    var name := WebhookName(event, secret);
    var found := FindActive(hooks, event, url);
    if found.Some? && found.value.name == name {
    } else {
      var hs := if found.Some? then Deactivated(hooks, found.value.idhook) else hooks;
      if found.Some? {
        DeactivateEffect(hooks, nextId, found.value);
      }
      var created := Hook(nextId, name, event, url, secret, true);
      AppendEffect(hs, nextId, created);
      assert EnsureHook(hooks, nextId, event, url, secret) == (hs + [created], nextId + 1);
      assert forall h :: h in hs ==> h in hs + [created];
    }
  }

  /** A hook that is current (right event, URL and name) makes the step change nothing. */
  lemma CurrentHookLeftAlone(hooks: seq<Hook>, nextId: int, event: string, url: string, secret: string)
    requires FindActive(hooks, event, url).Some? && FindActive(hooks, event, url).value.name == WebhookName(event, secret)
    ensures EnsureHook(hooks, nextId, event, url, secret) == (hooks, nextId)
  {
  }

  /** A stale hook (right event and URL, other name) ends up inactive, and a new one is created after it. */
  lemma StaleHookReplaced(hooks: seq<Hook>, nextId: int, event: string, url: string, secret: string)
    requires WellFormed(hooks, nextId)
    requires FindActive(hooks, event, url).Some? && FindActive(hooks, event, url).value.name != WebhookName(event, secret)
    ensures var stale := FindActive(hooks, event, url).value;
      var r := EnsureHook(hooks, nextId, event, url, secret);
      |r.0| == |hooks| + 1 && r.1 == nextId + 1 &&
      (forall k :: 0 <= k < |hooks| && hooks[k].idhook == stale.idhook ==> !r.0[k].active) &&
      r.0[|hooks|] == Hook(nextId, WebhookName(event, secret), event, url, secret, true)
  {
  }

  /** Registration is the two steps, free stock first, then picklists. */
  lemma RegisterAllUnfolds(hooks: seq<Hook>, nextId: int, url: string, secret: string)
    ensures var one := EnsureHook(hooks, nextId, FreeStockChanged, url, secret);
      RegisterAll(hooks, nextId, url, secret) == EnsureHook(one.0, one.1, PicklistsClosed, url, secret)
  {
    assert RegisterUpTo(hooks, nextId, url, secret, 1) == EnsureHook(hooks, nextId, FreeStockChanged, url, secret);
  }

  /** The picklist step leaves the current free-stock hook found as it was. */
  lemma SecondStepKeepsFirst(hooks: seq<Hook>, nextId: int, url: string, secret: string)
    requires WellFormed(hooks, nextId) && FindActive(hooks, FreeStockChanged, url).Some?
    ensures FindActive(EnsureHook(hooks, nextId, PicklistsClosed, url, secret).0, FreeStockChanged, url)
      == FindActive(hooks, FreeStockChanged, url)
  {
    var h := FindActive(hooks, FreeStockChanged, url).value;
    var two := EnsureHook(hooks, nextId, PicklistsClosed, url, secret);
    EnsureHookEffect(hooks, nextId, PicklistsClosed, url, secret);
    assert h in two.0;
    FindActiveIsTheActiveHook(two.0, two.1, h);
  }

  /** Both steps together leave a current hook for each event. */
  lemma TwoStepsPresent(hooks: seq<Hook>, nextId: int, url: string, secret: string)
    requires WellFormed(hooks, nextId)
    ensures var one := EnsureHook(hooks, nextId, FreeStockChanged, url, secret);
      var two := EnsureHook(one.0, one.1, PicklistsClosed, url, secret);
      WellFormed(two.0, two.1) &&
      FindActive(two.0, FreeStockChanged, url).Some? &&
      FindActive(two.0, FreeStockChanged, url).value.name == WebhookName(FreeStockChanged, secret) &&
      FindActive(two.0, PicklistsClosed, url).Some? &&
      FindActive(two.0, PicklistsClosed, url).value.name == WebhookName(PicklistsClosed, secret)
  {
    var one := EnsureHook(hooks, nextId, FreeStockChanged, url, secret);
    EnsureHookEffect(hooks, nextId, FreeStockChanged, url, secret);
    EnsureHookEffect(one.0, one.1, PicklistsClosed, url, secret);
    SecondStepKeepsFirst(one.0, one.1, url, secret);
  }

  /**
   * After registration, each of the two events has an active hook with the
   * hook URL, named after the event and the secret's first four characters.
   */
  lemma RegisteredHooksPresent(hooks: seq<Hook>, nextId: int, url: string, secret: string)
    requires WellFormed(hooks, nextId)
    ensures var r := RegisterAll(hooks, nextId, url, secret);
      WellFormed(r.0, r.1) &&
      forall e :: e in EventsToRegister ==>
        FindActive(r.0, e, url).Some? && FindActive(r.0, e, url).value.name == WebhookName(e, secret)
  {
    RegisterAllUnfolds(hooks, nextId, url, secret);
    TwoStepsPresent(hooks, nextId, url, secret);
    var r := RegisterAll(hooks, nextId, url, secret);
    forall e | e in EventsToRegister
      ensures FindActive(r.0, e, url).Some? && FindActive(r.0, e, url).value.name == WebhookName(e, secret)
    {
      assert e == FreeStockChanged || e == PicklistsClosed;
    }
  }

  /** Registering again with the same URL and secret changes nothing. */
  lemma RegisterIdempotent(hooks: seq<Hook>, nextId: int, url: string, secret: string)
    requires WellFormed(hooks, nextId)
    ensures var r := RegisterAll(hooks, nextId, url, secret);
      RegisterAll(r.0, r.1, url, secret) == r
  {
    RegisteredHooksPresent(hooks, nextId, url, secret);
    var r := RegisterAll(hooks, nextId, url, secret);
    CurrentHookLeftAlone(r.0, r.1, FreeStockChanged, url, secret);
    assert RegisterUpTo(r.0, r.1, url, secret, 1) == r;
    CurrentHookLeftAlone(r.0, r.1, PicklistsClosed, url, secret);
  }

  /** The hook table Picqer keeps for one account. */
  class HookRegistry {
    var hooks: seq<Hook>
    var nextId: int

    ghost predicate Valid()
      reads this
    {
      WellFormed(hooks, nextId)
    }

    constructor (hooks0: seq<Hook>, nextId0: int)
      requires WellFormed(hooks0, nextId0)
      ensures Valid() && hooks == hooks0 && nextId == nextId0
    {
      hooks, nextId := hooks0, nextId0;
    }

    method GetWebhooks() returns (hs: seq<Hook>)
      ensures hs == hooks
    {
      hs := hooks;
    }

    method DeactivateHook(idhook: int)
      modifies this
      ensures hooks == Deactivated(old(hooks), idhook) && nextId == old(nextId)
    {
      hooks := Deactivated(hooks, idhook);
    }

    method CreateWebhook(name: string, address: string, event: string, secret: string)
      returns (r: Result<Hook, HookError>)
      modifies this
      ensures FindActive(old(hooks), event, address).Some? ==>
        r == Err(DuplicateHook(event, address)) && hooks == old(hooks) && nextId == old(nextId)
      ensures FindActive(old(hooks), event, address).None? ==>
        r == Ok(Hook(old(nextId), name, event, address, secret, true)) &&
        hooks == old(hooks) + [r.value] && nextId == old(nextId) + 1
    {
      if FindActive(hooks, event, address).Some? {
        return Err(DuplicateHook(event, address));
      }
      var h := Hook(nextId, name, event, address, secret, true);
      hooks, nextId := hooks + [h], nextId + 1;
      r := Ok(h);
    }
  }

  /** One round of the `for` loop of `registerWebhooks`, for `hookEvent`. */
  method RegisterHook(reg: HookRegistry, hookEvent: string, hookUrl: string, webhookSecret: string)
    requires reg.Valid()
    modifies reg
    ensures (reg.hooks, reg.nextId) == EnsureHook(old(reg.hooks), old(reg.nextId), hookEvent, hookUrl, webhookSecret)
  {
    var webhookName := WebhookName(hookEvent, webhookSecret);
    var webhooks := reg.GetWebhooks();
    var hook := FindActive(webhooks, hookEvent, hookUrl);
    if hook.Some? && hook.value.name == webhookName {
      return;
    }
    if hook.Some? {
      DeactivateClears(webhooks, reg.nextId, hook.value);
      reg.DeactivateHook(hook.value.idhook);
    }
    var created := reg.CreateWebhook(webhookName, hookUrl, hookEvent, webhookSecret);
    if created.Err? {
      // the source throws here; a stale hook was deactivated first, so Picqer never refuses
      assert false;
    }
  }

  /**
   * `registerWebhooks`: nothing happens without a usable client; otherwise
   * the table becomes `RegisterAll` of the old one, and creating a hook
   * never runs into Picqer's uniqueness constraint.
   */
  method RegisterWebhooks(reg: HookRegistry, config: Option<PicqerConfig>, vendureHost: string,
                          channelToken: string, webhookSecret: string)
    requires reg.Valid()
    modifies reg
    ensures reg.Valid()
    ensures GetClient(config).None? ==> reg.hooks == old(reg.hooks) && reg.nextId == old(reg.nextId)
    ensures GetClient(config).Some? ==>
      (reg.hooks, reg.nextId) == RegisterAll(old(reg.hooks), old(reg.nextId), HookUrl(vendureHost, channelToken), webhookSecret)
  {
    var hookUrl := HookUrl(vendureHost, channelToken);
    var client := GetClient(config);
    if client.None? {
      return;
    }
    var i := 0;
    while i < |EventsToRegister|
      invariant 0 <= i <= |EventsToRegister|
      invariant reg.Valid()
      invariant RegisterUpTo(old(reg.hooks), old(reg.nextId), hookUrl, webhookSecret, i) == (reg.hooks, reg.nextId)
    {
      EnsureHookEffect(reg.hooks, reg.nextId, EventsToRegister[i], hookUrl, webhookSecret);
      RegisterHook(reg, EventsToRegister[i], hookUrl, webhookSecret);
      i := i + 1;
    }
  }
}
