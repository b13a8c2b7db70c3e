/** The revision tag: a webhook through which labelled namespaces reach the control plane of one revision. */
module TagWebhook {
  import opened Wrappers

  const ISTIO_SYSTEM := "aks-istio-system"

  datatype Service = Service(name: string, namespace: string, path: Option<string>, port: Option<int>)

  datatype Entry = Entry(name: string, service: Option<Service>, caBundle: string)

  datatype Webhook = Webhook(labels: map<string, string>, entries: seq<Entry>)

  datatype TagError =
    | RequestFailed | RevisionWebhookMissing | NoRevisionEntries | EmptyCaBundle | NoEntries | NoService(entry: nat)

  function TagWebhookName(tag: string): string { "istio-revision-tag-" + tag + "-" + ISTIO_SYSTEM }

  function RevisionWebhookName(revision: string): string { "istio-sidecar-injector-" + revision + "-" + ISTIO_SYSTEM }

  function IstiodName(revision: string): string { "istiod-" + revision }

  function ExpectedLabels(tag: string): map<string, string> {
    map["istio.io/rev" := tag, "istio.io/tag" := tag, "app" := "sidecar-injector"]
  }

  // ----- what a tag webhook should be

  function RetargetEntry(e: Entry, revision: string, caBundle: string): Entry
    requires e.service.Some?
  {
    e.(service := Some(Service(IstiodName(revision), ISTIO_SYSTEM, Some("/inject"), Some(443))), caBundle := caBundle)
  }

  ghost predicate HasServices(w: Webhook) {
    forall i :: 0 <= i < |w.entries| ==> w.entries[i].service.Some?
  }

  /** The webhook with every entry pointed at the revision and the labels of the tag added. */
  function Retarget(w: Webhook, tag: string, revision: string, caBundle: string): Webhook
    requires HasServices(w)
  {
    Webhook(w.labels + ExpectedLabels(tag),
            seq(|w.entries|, i requires 0 <= i < |w.entries| => RetargetEntry(w.entries[i], revision, caBundle)))
  }

  /** A new webhook has one entry for the revision. */
  function NewTagWebhook(tag: string, revision: string, caBundle: string): Webhook {
    var service := Service(IstiodName(revision), ISTIO_SYSTEM, Some("/inject"), Some(443));
    Webhook(ExpectedLabels(tag), [Entry("rev.namespace.sidecar-injector.istio.io", Some(service), caBundle)])
  }

  /** Flipping the tag again overrides the earlier flip; in particular flipping back restores a webhook, and flipping twice is flipping once. */
  lemma LastFlipWins(w: Webhook, tag: string, first: string, caFirst: string, second: string, caSecond: string)
    requires HasServices(w)
    ensures HasServices(Retarget(w, tag, first, caFirst))
    ensures Retarget(Retarget(w, tag, first, caFirst), tag, second, caSecond) == Retarget(w, tag, second, caSecond)
    ensures w == Retarget(w, tag, second, caSecond) ==>
      Retarget(Retarget(w, tag, first, caFirst), tag, second, caSecond) == w
  {
    var l, r := Retarget(Retarget(w, tag, first, caFirst), tag, second, caSecond), Retarget(w, tag, second, caSecond);
    assert l.entries == r.entries;
    assert l.labels == r.labels;
  }

  // ----- the tag part of the verification

  /** The webhook exists and every entry leads to the revision. */
  ghost predicate TagVerified(hooks: map<string, Webhook>, tag: string, revision: string) {
    && TagWebhookName(tag) in hooks
    && forall e :: e in hooks[TagWebhookName(tag)].entries ==> e.service.Some? && e.service.value.name == IstiodName(revision)
  }

  lemma RetargetedIsVerified(hooks: map<string, Webhook>, w: Webhook, tag: string, revision: string, caBundle: string)
    requires TagWebhookName(tag) in hooks
    requires (HasServices(w) && hooks[TagWebhookName(tag)] == Retarget(w, tag, revision, caBundle)) ||
             hooks[TagWebhookName(tag)] == NewTagWebhook(tag, revision, caBundle)
    ensures TagVerified(hooks, tag, revision)
  {
  }

  /** The webhooks of a cluster. Writes may fail before or after they have taken effect. */
  class WebhookApi {
    var hooks: map<string, Webhook>

    constructor (hooks: map<string, Webhook>)
      ensures this.hooks == hooks
    {
      this.hooks := hooks;
    }

    method Get(name: string) returns (r: Result<Option<Webhook>, TagError>)
      ensures r.Ok? ==> r.value == if name in hooks then Some(hooks[name]) else None
      ensures r.Err? ==> r.error == RequestFailed
    {
      var failed: bool := *;
      r := if failed then Err(RequestFailed) else Ok(if name in hooks then Some(hooks[name]) else None);
    }

    method Write(name: string, w: Webhook) returns (ok: bool)
      modifies this
      ensures hooks == old(hooks)[name := w] || (!ok && hooks == old(hooks))
    {
      var effect: bool := *;
      if effect {
        hooks := hooks[name := w];
      }
      ok := *;
      ok := ok && effect;
    }

    /** The certificate bundle of a revision's own webhook. */
    method CaBundle(revision: string) returns (r: Result<string, TagError>)
      ensures r.Ok? ==> r.value != "" && HasBundle(hooks, revision, r.value)
      ensures r.Err? && r.error != RequestFailed ==> !exists ca :: ca != "" && HasBundle(hooks, revision, ca)
    {
      NamesAre("", revision);
      var found := Get(RevisionWebhookName(revision));
      if found.Err? {
        return Err(found.error);
      }
      if found.value.None? {
        return Err(RevisionWebhookMissing);
      }
      if |found.value.value.entries| == 0 {
        return Err(NoRevisionEntries);
      }
      var ca := found.value.value.entries[0].caBundle;
      r := if ca == "" then Err(EmptyCaBundle) else Ok(ca);
    }

    /**
      * Creates the tag webhook or points its entries at the revision; afterwards the tag verification passes. A missing
      * label counts as an empty one, so with an empty tag labels may stay missing.
      */
    method EnsureRevisionTag(tag: string, revision: string) returns (err: Option<TagError>)
      modifies this
      ensures err.None? ==> TagVerified(hooks, tag, revision)
      ensures err.None? ==> exists ca :: ca != "" && HasBundle(old(hooks), revision, ca) && RoutesTo(hooks, tag, revision, ca)
      ensures err.None? && tag != "" ==> HasTagLabels(hooks, tag)
      ensures err.None? && TagWebhookName(tag) !in old(hooks) ==> IsNew(hooks, tag)
      ensures hooks == old(hooks) || exists ca ::
        HasBundle(old(hooks), revision, ca) && hooks == old(hooks)[TagWebhookName(tag) := Desired(old(hooks), tag, revision, ca)]
      ensures err.None? && tag != "" ==> exists ca ::
        HasBundle(old(hooks), revision, ca) && hooks == old(hooks)[TagWebhookName(tag) := Desired(old(hooks), tag, revision, ca)]
    {
      hide *;
      var name := TagWebhookName(tag);
      var current := Get(name);
      if current.Err? {
        return Some(current.error);
      }
      var ca := CaBundle(revision);
      if ca.Err? {
        return Some(ca.error);
      }
      DesiredIs(hooks, tag, revision, ca.value);
      if current.value.None? {
        var created := Write(name, NewTagWebhook(tag, revision, ca.value));
        if !created {
          return Some(RequestFailed);
        }
        RetargetedIsVerified(hooks, Webhook(map[], []), tag, revision, ca.value);
        NewRoutes(hooks, tag, revision, ca.value);
        return None;
      }
      var w := current.value.value;
      if |w.entries| == 0 {
        return Some(NoEntries);
      }
      var updated, changed;
      updated, changed, err := RetargetEntries(w, revision, ca.value);
      if err.Some? {
        return;
      }
      LabelsDecide(w, updated, tag, revision, ca.value);
      if !LabelsPresent(w.labels, tag) {
        changed := true;
      }
      if !changed {
        assert hooks[name := w] == hooks;
        LeadingIsVerified(hooks, w, tag, revision);
        RetargetedRoutes(hooks, w, w.labels, updated, tag, revision, ca.value);
        return None;
      }
      var ok := Write(name, Webhook(w.labels + ExpectedLabels(tag), updated));
      if !ok {
        return Some(RequestFailed);
      }
      RetargetedIsVerified(hooks, w, tag, revision, ca.value);
      RetargetedRoutes(hooks, w, w.labels + ExpectedLabels(tag), updated, tag, revision, ca.value);
      err := None;
    }
  }

  /** The webhook of the tag has entries, and all of them lead to the injection port of the revision's istiod with its bundle. */
  ghost predicate RoutesTo(hooks: map<string, Webhook>, tag: string, revision: string, ca: string) {
    var name := "istio-revision-tag-" + tag + "-aks-istio-system";
    && name in hooks && hooks[name].entries != []
    && forall e :: e in hooks[name].entries ==>
         && e.caBundle == ca
         && e.service == Some(Service("istiod-" + revision, "aks-istio-system", Some("/inject"), Some(443)))
  }

  ghost predicate HasTagLabels(hooks: map<string, Webhook>, tag: string) {
    var name := "istio-revision-tag-" + tag + "-aks-istio-system";
    && name in hooks
    && var labels := hooks[name].labels;
       && "istio.io/rev" in labels && labels["istio.io/rev"] == tag
       && "istio.io/tag" in labels && labels["istio.io/tag"] == tag
       && "app" in labels && labels["app"] == "sidecar-injector"
  }

  lemma NamesAre(tag: string, revision: string)
    ensures TagWebhookName(tag) == "istio-revision-tag-" + tag + "-aks-istio-system"
    ensures RevisionWebhookName(revision) == "istio-sidecar-injector-" + revision + "-aks-istio-system"
  {
    assert ("istio-revision-tag-" + tag + "-") + ISTIO_SYSTEM == ("istio-revision-tag-" + tag) + ("-" + ISTIO_SYSTEM);
    assert ("istio-sidecar-injector-" + revision + "-") + ISTIO_SYSTEM == ("istio-sidecar-injector-" + revision) + ("-" + ISTIO_SYSTEM);
    assert "-" + ISTIO_SYSTEM == "-aks-istio-system";
  }

  /** The webhook of the tag has the one entry that a new one gets. */
  ghost predicate IsNew(hooks: map<string, Webhook>, tag: string) {
    var name := TagWebhookName(tag);
    name in hooks && |hooks[name].entries| == 1 && hooks[name].entries[0].name == "rev.namespace.sidecar-injector.istio.io"
  }

  lemma NewRoutes(hooks: map<string, Webhook>, tag: string, revision: string, ca: string)
    requires TagWebhookName(tag) in hooks && hooks[TagWebhookName(tag)] == NewTagWebhook(tag, revision, ca)
    ensures RoutesTo(hooks, tag, revision, ca) && HasTagLabels(hooks, tag) && IsNew(hooks, tag)
  {
    NamesAre(tag, revision);
  }

  lemma RetargetedRoutes(hooks: map<string, Webhook>, w: Webhook, labels: map<string, string>, updated: seq<Entry>,
                         tag: string, revision: string, ca: string)
    requires HasServices(w) && w.entries != [] && |updated| == |w.entries|
    requires forall i :: 0 <= i < |updated| ==> updated[i] == RetargetEntry(w.entries[i], revision, ca)
    requires TagWebhookName(tag) in hooks && hooks[TagWebhookName(tag)] == Webhook(labels, updated)
    requires labels == w.labels + ExpectedLabels(tag) || (labels == w.labels && LabelsPresent(labels, tag))
    ensures RoutesTo(hooks, tag, revision, ca)
    ensures tag != "" ==> HasTagLabels(hooks, tag)
  {
    NamesAre(tag, revision);
  }

  lemma LeadingIsVerified(hooks: map<string, Webhook>, w: Webhook, tag: string, revision: string)
    requires TagWebhookName(tag) in hooks && hooks[TagWebhookName(tag)] == w
    requires forall e :: e in w.entries ==> e.service.Some? && e.service.value.name == IstiodName(revision)
    ensures TagVerified(hooks, tag, revision)
  {
  }

  ghost predicate HasBundle(hooks: map<string, Webhook>, revision: string, ca: string) {
    var name := "istio-sidecar-injector-" + revision + "-aks-istio-system";
    name in hooks && hooks[name].entries != [] && hooks[name].entries[0].caBundle == ca
  }

  /** What the tag webhook should be after the flip. */
  ghost function Desired(hooks: map<string, Webhook>, tag: string, revision: string, ca: string): Webhook {
    var name := TagWebhookName(tag);
    if name in hooks && HasServices(hooks[name]) then Retarget(hooks[name], tag, revision, ca) else NewTagWebhook(tag, revision, ca)
  }

  lemma DesiredIs(hooks: map<string, Webhook>, tag: string, revision: string, ca: string)
    ensures var name := TagWebhookName(tag);
            && (name !in hooks ==> Desired(hooks, tag, revision, ca) == NewTagWebhook(tag, revision, ca))
            && (name in hooks && HasServices(hooks[name]) ==>
                  Desired(hooks, tag, revision, ca) == Retarget(hooks[name], tag, revision, ca))
  {
  }

  predicate LabelsPresent(labels: map<string, string>, tag: string) {
    forall k :: k in ExpectedLabels(tag) ==> (if k in labels then labels[k] else "") == ExpectedLabels(tag)[k]
  }

  /** Edits a copy of the entries one field at a time; `changed` says whether any field differed. */
  method RetargetEntries(w: Webhook, revision: string, caBundle: string)
    returns (updated: seq<Entry>, changed: bool, err: Option<TagError>)
    ensures err.None? <==> HasServices(w)
    ensures err.None? ==> |updated| == |w.entries|
    ensures err.None? ==> forall i :: 0 <= i < |updated| ==> updated[i] == RetargetEntry(w.entries[i], revision, caBundle)
    ensures err.None? ==> (changed <==> updated != w.entries)
  {
    updated, changed := w.entries, false;
    for i := 0 to |updated|
      invariant |updated| == |w.entries|
      invariant forall k :: 0 <= k < i ==> w.entries[k].service.Some? && updated[k] == RetargetEntry(w.entries[k], revision, caBundle)
      invariant forall k :: i <= k < |updated| ==> updated[k] == w.entries[k]
      invariant changed <==> exists k :: 0 <= k < i && updated[k] != w.entries[k]
    {
      if updated[i].service.None? {
        return updated, changed, Some(NoService(i));
      }
      var e := updated[i];
      var s := e.service.value;
      if s.name != IstiodName(revision) {
        s := s.(name := IstiodName(revision));
        changed := true;
      }
      if s.namespace != ISTIO_SYSTEM {
        s := s.(namespace := ISTIO_SYSTEM);
        changed := true;
      }
      if e.caBundle != caBundle {
        e := e.(caBundle := caBundle);
        changed := true;
      }
      if s.path != Some("/inject") {
        s := s.(path := Some("/inject"));
        changed := true;
      }
      if s.port != Some(443) {
        s := s.(port := Some(443));
        changed := true;
      }
      ghost var before := updated;
      e := e.(service := Some(s));
      assert e == RetargetEntry(w.entries[i], revision, caBundle);
      updated := updated[i := e];
      assert updated[i] == e;
    }
    err := None;
    if !changed {
      assert updated == w.entries;
    }
  }

  /** The edited webhook is the desired one, and it is the current one when nothing was changed. */
  lemma EntriesLead(w: Webhook, updated: seq<Entry>, revision: string, ca: string)
    requires HasServices(w) && |updated| == |w.entries|
    requires forall i :: 0 <= i < |updated| ==> updated[i] == RetargetEntry(w.entries[i], revision, ca)
    ensures forall e :: e in updated ==> e.service.Some? && e.service.value.name == IstiodName(revision)
  {
  }

  lemma LabelsDecide(w: Webhook, updated: seq<Entry>, tag: string, revision: string, ca: string)
    requires HasServices(w) && |updated| == |w.entries|
    requires forall i :: 0 <= i < |updated| ==> updated[i] == RetargetEntry(w.entries[i], revision, ca)
    ensures Webhook(w.labels + ExpectedLabels(tag), updated) == Retarget(w, tag, revision, ca)
    ensures tag != "" && LabelsPresent(w.labels, tag) && updated == w.entries ==> w == Retarget(w, tag, revision, ca)
    ensures updated == w.entries && w.entries != [] ==>
      forall e :: e in w.entries ==> e.service.Some? && e.service.value.name == IstiodName(revision)
  {
    hide RetargetEntry;
    assert updated == Retarget(w, tag, revision, ca).entries;
    EntriesLead(w, updated, revision, ca);
    if tag != "" && LabelsPresent(w.labels, tag) {
      forall k | k in ExpectedLabels(tag) ensures k in w.labels && w.labels[k] == ExpectedLabels(tag)[k] {
        assert ExpectedLabels(tag)[k] != "";
      }
      assert w.labels + ExpectedLabels(tag) == w.labels;
    }
  }
}
