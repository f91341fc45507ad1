/**
 The controllers' own code: the ConfigMap reconciler, the batch update it ends in, and the two cron
 ticks, as methods that change an API server. Everything between a Get and the closing Update is
 local, so interference by other actors shows only in how old the snapshot is and in the fault.
 */
module Controllers {
  import opened Decimal
  import opened ConfigMaps
  import opened Faults
  import opened History
  import opened Store
  import opened Strings

  class ApiServer {
    var objects: Objects

    constructor (objects: Objects)
      ensures this.objects == objects
    {
      this.objects := objects;
    }

    method Update(from: Snapshot, content: Content, cause: Cause, fault: Fault) returns (ok: bool)
      modifies this
      ensures Written(objects, ok) == Write(old(objects), from, content, cause, fault)
    {
      if Applies(objects, from, fault) {
        var stored := objects[from.name];
        objects := objects[from.name := stored.(revisions := stored.revisions + [Revision(content, cause)])];
        ok := fault.NoFault?;
      } else {
        ok := false;
      }
    }

    method Delete(name: Name, fault: Fault) returns (ok: bool)
      modifies this
      ensures objects == Erase(old(objects), name, fault)
    {
      if name in objects && !fault.Refused? {
        objects := objects[name := objects[name].(gone := true)];
      }
      ok := fault.NoFault?;
    }
  }

  /** A range loop over a Go map visits its keys in any order; overwriting with them is an overlay. */
  method OverwriteAll(entries: StringMap, updates: StringMap) returns (merged: StringMap)
    ensures merged == entries + updates
  {
    merged := entries;
    var pending := updates.Keys;
    while pending != {}
      invariant pending <= updates.Keys
      invariant merged.Keys == entries.Keys + (updates.Keys - pending)
      invariant forall k | k in merged :: merged[k] == if k in updates && k !in pending then updates[k] else entries[k]
      decreases pending
    {
      var key :| key in pending;
      merged := merged[key := updates[key]];
      pending := pending - {key};
    }
  }

  /** `BatchUpdateCM`: an error without any call when there is nothing to write. */
  method BatchUpdateCM(server: ApiServer, from: Snapshot, labels: StringMap, annotations: StringMap, cause: Cause,
                       fault: Fault)
    returns (failed: bool)
    modifies server
    ensures labels == map[] && annotations == map[] ==> failed && server.objects == old(server.objects)
    ensures labels != map[] || annotations != map[] ==>
              Written(server.objects, !failed) ==
              Write(old(server.objects), from,
                    Content(from.content.labels + labels, from.content.annotations + annotations), cause, fault)
  {
    if labels == map[] && annotations == map[] {
      return true;
    }
    var content := from.content;
    if labels != map[] {
      var merged := OverwriteAll(content.labels, labels);
      content := content.(labels := merged);
    }
    if annotations != map[] {
      var merged := OverwriteAll(content.annotations, annotations);
      content := content.(annotations := merged);
    }
    assert content.labels == from.content.labels + labels;
    assert content.annotations == from.content.annotations + annotations;
    var ok := server.Update(from, content, cause, fault);
    failed := !ok;
  }

  class ConfigMapReconciler {
    const server: ApiServer
    const config: Config

    constructor (server: ApiServer, config: Config)
      ensures this.server == server && this.config == config
    {
      this.server := server;
      this.config := config;
    }

    /**
     The post-processor loop. `outcomes[i]` is what processor `i` answers if it is called; `calls`
     lists the processors called, in order.
     */
    method RunProcessors(annotations: StringMap, outcomes: seq<Outcome>)
      returns (retry: seq<string>, updates: StringMap, calls: seq<nat>)
      requires |outcomes| == |config.processors|
      ensures Progress(retry, updates) == VisitAll(config, annotations, outcomes)
      ensures forall k, l | 0 <= k < l < |calls| :: calls[k] < calls[l]
      ensures forall i: nat | i < |outcomes| :: i in calls <==> Calls(annotations, config.processors[i])
    {
      retry, updates, calls := [], map[], [];
      var i := 0;
      while i < |config.processors|
        invariant 0 <= i <= |config.processors|
        invariant Progress(retry, updates) == VisitAll(config, annotations, outcomes[..i])
        invariant forall k | 0 <= k < |calls| :: calls[k] < i
        invariant forall k, l | 0 <= k < l < |calls| :: calls[k] < calls[l]
        invariant forall j: nat | j < i :: j in calls <==> Calls(annotations, config.processors[j])
      {
        assert outcomes[..i + 1][..i] == outcomes[..i];
        var processor := config.processors[i];
        if processor.Some? {
          var key := processor.value;
          if !(key in annotations && annotations[key] == SUCCESS) {
            calls := calls + [i];
            match outcomes[i] {
              case Failed(message) =>
                retry := retry + [key];
                updates := updates[key := FAILURE];
                updates := updates[ErrorKey(key) := message];
              case Delivered =>
                updates := updates[key := SUCCESS];
            }
          }
        }
        i := i + 1;
      }
      assert outcomes[..i] == outcomes;
    }

    method TypeOf(labels: StringMap) returns (insightsType: string)
      ensures insightsType == InsightsType(labels)
    {
      insightsType := "unclassified";
      if TYPE in labels {
        insightsType := labels[TYPE];
      } else if INSIGHTS in labels {
        match labels[INSIGHTS] {
          case "sbom-gz" => insightsType := "sbom";
          case "image-gz" => insightsType := "inspect";
          case _ =>
        }
      }
    }

    /** The stored counter; an unreadable one counts as the first run. */
    method ReadRetries(annotations: StringMap) returns (numberOfRetries: int)
      ensures numberOfRetries == StoredRetries(annotations)
    {
      numberOfRetries := 0;
      if RETRIES in annotations {
        var parsed := ParseInt64(annotations[RETRIES]);
        numberOfRetries := parsed.value;
        if parsed.verdict != Fine {
          numberOfRetries := 0;
        }
      }
    }

    /** From the stored retry counter to the label and annotation updates of this round. */
    method DecideUpdates(annotations: StringMap, outcomes: seq<Outcome>, now: int, stamp: string)
      returns (updateLabels: StringMap, updateAnnotations: StringMap, failing: bool)
      requires |outcomes| == |config.processors|
      ensures Plan(updateLabels, updateAnnotations, failing) == PlanRound(config, annotations, outcomes, now, stamp)
    {
      var numberOfRetries := ReadRetries(annotations);
      var retry, updates, _ := RunProcessors(annotations, outcomes);
      updateLabels, updateAnnotations, failing := map[], updates, |retry| > 0;
      if failing {
        updateLabels := updateLabels[DEFERRED := FormatInt(Deadline(config, now))];
        numberOfRetries := Wrap64(numberOfRetries + 1);
        if numberOfRetries > config.maxRetries {
          updateLabels := updateLabels[EXCEEDED := "MAX_RETRY_EXCEEDED"];
        }
      } else {
        updateAnnotations := updateAnnotations[PROCESSED := stamp];
      }
      updateAnnotations := updateAnnotations[RETRIES := FormatInt(numberOfRetries)];
    }

    /**
     One call of `Reconcile`: `now` and `stamp` are its clock reads, `fault` is how the closing Update
     goes. Only an object of a recognised type that both Gets found is processed.
     */
    method Reconcile(got: Got, outcomes: seq<Outcome>, now: int, stamp: string, fault: Fault)
      returns (failed: bool)
      requires |outcomes| == |config.processors|
      modifies server
      ensures Written(server.objects, !failed) ==
                ReconcileOnce(config, old(server.objects), got, outcomes, now, stamp, fault)
    {
      if !got.Found? {
        return got.GetFailed?;
      }
      var insightsType := TypeOf(got.from.content.labels);
      if insightsType != "sbom" && insightsType != "inspect" {
        return true;
      }
      var labels, annotations, failing := DecideUpdates(got.from.content.annotations, outcomes, now, stamp);
      assert RETRIES in annotations;
      failed := BatchUpdateCM(server, got.from, labels, annotations, Round(outcomes, now, stamp, failing), fault);
    }
  }

  /** The deferred-clear cron's loop over one listed batch, carrying its shared `err`. */
  method ClearDeferred(server: ApiServer, items: seq<Snapshot>, turns: seq<Turn>) returns (failed: bool)
    requires |items| == |turns|
    modifies server
    ensures Ticked(server.objects, failed) == ClearItems(old(server.objects), items, false, turns)
  {
    failed := false;
    for i := 0 to |items|
      invariant ClearItems(server.objects, items[i..], failed, turns[i..]) ==
                  ClearItems(old(server.objects), items, false, turns)
    {
      var x := items[i];
      if DEFERRED in x.content.labels && !failed {
        var deadline := ParseInt32(x.content.labels[DEFERRED]).value;
        if turns[i].at > deadline * SECOND {
          var labels := x.content.labels - {DEFERRED};
          var ok := server.Update(x, x.content.(labels := labels), Released(turns[i].at), turns[i].fault);
          failed := !ok;
        }
      }
      assert items[i..][1..] == items[i + 1..] && turns[i..][1..] == turns[i + 1..];
    }
  }

  /** The burn-after-reading cron's loop over one listed batch; a failed Delete is only logged. */
  method BurnProcessed(server: ApiServer, items: seq<Snapshot>, faults: seq<Fault>)
    requires |items| == |faults|
    modifies server
    ensures server.objects == BurnItems(old(server.objects), items, faults)
  {
    for i := 0 to |items|
      invariant BurnItems(server.objects, items[i..], faults[i..]) == BurnItems(old(server.objects), items, faults)
    {
      var x := items[i];
      if PROCESSED in x.content.annotations {
        var _ := server.Delete(x.name, faults[i]);
      }
      assert items[i..][1..] == items[i + 1..] && faults[i..][1..] == faults[i + 1..];
    }
  }
}
