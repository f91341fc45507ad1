/**
 The API server as the controllers see it: objects are histories of revisions, a write carries the
 version its snapshot was read at, and a call may be refused or may be applied without its answer
 arriving. A deleted object stays in the map as `gone`: names are not used twice.
 */
module Store {
  import opened Decimal
  import opened ConfigMaps
  import opened Faults
  import opened History

  type Name = string

  datatype Stored = Stored(revisions: seq<Revision>, gone: bool)
  type Objects = map<Name, Stored>

  /** An object as some earlier Get or List returned it. */
  datatype Snapshot = Snapshot(name: Name, version: nat, content: Content)

  predicate Current(objects: Objects, from: Snapshot) {
    && from.name in objects && !objects[from.name].gone
    && |objects[from.name].revisions| == from.version + 1
  }

  /** The server applies a write only if the snapshot it is based on is still the latest revision. */
  predicate Applies(objects: Objects, from: Snapshot, fault: Fault) {
    !fault.Refused? && Current(objects, from)
  }

  datatype Written = Written(objects: Objects, ok: bool)

  function Append(objects: Objects, name: Name, r: Revision): Objects
    requires name in objects
  {
    objects[name := objects[name].(revisions := objects[name].revisions + [r])]
  }

  function Write(objects: Objects, from: Snapshot, content: Content, cause: Cause, fault: Fault): Written {
    if Applies(objects, from, fault)
    then Written(Append(objects, from.name, Revision(content, cause)), fault.NoFault?)
    else Written(objects, false)
  }

  /** The only change a write can make is one more revision of the object it names. */
  lemma WriteAppends(objects: Objects, from: Snapshot, content: Content, cause: Cause, fault: Fault, name: Name)
    requires name in objects
    ensures var after := Write(objects, from, content, cause, fault).objects;
            && name in after
            && (after[name] != objects[name] ==>
                  name == from.name && after[name].revisions == objects[name].revisions + [Revision(content, cause)])
  {
  }

  /** A round's one effect on the server: its plan laid over the snapshot it read. */
  function CommitRound(c: Config, objects: Objects, from: Snapshot, outcomes: seq<Outcome>, at: int, stamp: string,
                       fault: Fault): Written
    requires |outcomes| == |c.processors|
  {
    var plan := PlanRound(c, from.content.annotations, outcomes, at, stamp);
    Write(objects, from, Overlay(from.content, plan), Round(outcomes, at, stamp, plan.failing), fault)
  }

  /** How the opening Gets, of the ConfigMap and of its namespace, went. */
  datatype Got = Found(from: Snapshot) | NotFound | GetFailed

  /**
   What one call of `Reconcile` does to the server, and whether it returns nil: a missing object or
   namespace is not an error, a failing Get or an unrecognised type is.
   */
  function ReconcileOnce(c: Config, objects: Objects, got: Got, outcomes: seq<Outcome>, at: int, stamp: string,
                         fault: Fault): Written
    requires |outcomes| == |c.processors|
  {
    match got
    case NotFound => Written(objects, true)
    case GetFailed => Written(objects, false)
    case Found(from) =>
      if Recognised(from.content.labels) then CommitRound(c, objects, from, outcomes, at, stamp, fault)
      else Written(objects, false)
  }

  /** Deletion names the object only; no version is checked. */
  function Erase(objects: Objects, name: Name, fault: Fault): Objects {
    if fault.Refused? || name !in objects then objects
    else objects[name := objects[name].(gone := true)]
  }

  // ---- One tick of the burn-after-reading cron ----------------------------------------------

  function BurnItem(objects: Objects, item: Snapshot, fault: Fault): Objects {
    if Marked(item.content) then Erase(objects, item.name, fault) else objects
  }

  function BurnItems(objects: Objects, items: seq<Snapshot>, faults: seq<Fault>): Objects
    requires |items| == |faults|
  {
    if items == [] then objects
    else BurnItems(BurnItem(objects, items[0], faults[0]), items[1..], faults[1..])
  }

  /**
   A failed Delete does not stop the tick: after it an object is gone exactly when it was before or
   was listed with the processed mark and its Delete went through. No revision is written.
   */
  lemma {:induction false} BurnErasesExactly(objects: Objects, items: seq<Snapshot>, faults: seq<Fault>, name: Name)
    requires |items| == |faults| && name in objects
    ensures var after := BurnItems(objects, items, faults);
            && name in after && after[name].revisions == objects[name].revisions
            && (after[name].gone <==>
                 (objects[name].gone ||
                  exists i | 0 <= i < |items| ::
                      items[i].name == name && Marked(items[i].content) && !faults[i].Refused?))
  {
    if items != [] {
      var next := BurnItem(objects, items[0], faults[0]);
      BurnErasesExactly(next, items[1..], faults[1..], name);
      assert forall i | 0 < i < |items| :: items[i] == items[1..][i - 1] && faults[i] == faults[1..][i - 1];
    }
  }

  // ---- One tick of the deferred-clear cron --------------------------------------------------

  datatype Ticked = Ticked(objects: Objects, failed: bool)

  /**
   One iteration of the tick's loop. `failed` is the `err` variable of the enclosing function: the
   item is skipped when an earlier Update set it.
   */
  function ClearItem(objects: Objects, item: Snapshot, failed: bool, at: int, fault: Fault): Ticked {
    if DEFERRED !in item.content.labels || failed || !Expired(item.content.labels[DEFERRED], at)
    then Ticked(objects, failed)
    else
      var w := Write(objects, item, Undeferred(item.content), Released(at), fault);
      Ticked(w.objects, !w.ok)
  }

  /** What the surroundings do during one loop iteration: the clock it reads, how its call goes. */
  datatype Turn = Turn(at: int, fault: Fault)

  function ClearItems(objects: Objects, items: seq<Snapshot>, failed: bool, turns: seq<Turn>): Ticked
    requires |items| == |turns|
  {
    if items == [] then Ticked(objects, failed)
    else
      var t := ClearItem(objects, items[0], failed, turns[0].at, turns[0].fault);
      ClearItems(t.objects, items[1..], t.failed, turns[1..])
  }

  predicate Due(item: Snapshot, turn: Turn) {
    DEFERRED in item.content.labels && Expired(item.content.labels[DEFERRED], turn.at)
  }

  /** Due is what carries the deferral label with a time that has passed, read with Go's 32-bit clamping. */
  lemma DueMeaning(item: Snapshot, turn: Turn)
    ensures Due(item, turn) ==> DEFERRED in item.content.labels.Keys
    ensures DEFERRED in item.content.labels.Keys ==>
              var text := item.content.labels[DEFERRED];
              IsNumber(text) ==>
                (Due(item, turn) <==>
                  turn.at > 1_000_000_000 * (if Number(text) > MAX_INT32 then MAX_INT32
                                             else if Number(text) < MIN_INT32 then MIN_INT32 else Number(text)))
  {
    if DEFERRED in item.content.labels {
      ExpiryMeaning(item.content.labels[DEFERRED], turn.at);
    }
  }

  /** The Update for this item would fail: refused, answered too late, or based on an old revision. */
  predicate UpdateFails(objects: Objects, item: Snapshot, turn: Turn) {
    Due(item, turn) && !(Applies(objects, item, turn.fault) && turn.fault.NoFault?)
  }

  /** Item `k` is reached with `err` still nil. */
  predicate Reached(objects: Objects, items: seq<Snapshot>, turns: seq<Turn>, k: nat)
    requires |items| == |turns| && k < |items|
  {
    forall j | 0 <= j < k :: !UpdateFails(objects, items[j], turns[j])
  }

  ghost predicate DistinctNames(items: seq<Snapshot>) {
    forall i, j | 0 <= i < j < |items| :: items[i].name != items[j].name
  }

  lemma ClearItemLocal(objects: Objects, item: Snapshot, failed: bool, at: int, fault: Fault, name: Name)
    requires name != item.name
    ensures var t := ClearItem(objects, item, failed, at, fault);
            (name in t.objects <==> name in objects) && (name in objects ==> t.objects[name] == objects[name])
  {
  }

  lemma {:induction false} NamesNotListed(objects: Objects, items: seq<Snapshot>, failed: bool, turns: seq<Turn>,
                                          name: Name)
    requires |items| == |turns| && forall i | 0 <= i < |items| :: items[i].name != name
    ensures var t := ClearItems(objects, items, failed, turns);
            (name in t.objects <==> name in objects) && (name in objects ==> t.objects[name] == objects[name])
  {
    if items != [] {
      ClearItemLocal(objects, items[0], failed, turns[0].at, turns[0].fault, name);
      var t := ClearItem(objects, items[0], failed, turns[0].at, turns[0].fault);
      NamesNotListed(t.objects, items[1..], t.failed, turns[1..], name);
    }
  }

  lemma {:induction false} FailedTickStops(objects: Objects, items: seq<Snapshot>, turns: seq<Turn>)
    requires |items| == |turns|
    ensures ClearItems(objects, items, true, turns) == Ticked(objects, true)
  {
    if items != [] {
      FailedTickStops(objects, items[1..], turns[1..]);
    }
  }

  /** Changing one object does not affect whether an update of a differently named one fails. */
  lemma FailureIsLocal(objects: Objects, objects': Objects, item: Snapshot, turn: Turn)
    requires item.name in objects <==> item.name in objects'
    requires item.name in objects ==> objects[item.name] == objects'[item.name]
    ensures UpdateFails(objects, item, turn) == UpdateFails(objects', item, turn)
    ensures Applies(objects, item, turn.fault) == Applies(objects', item, turn.fault)
  {
  }

  /**
   One tick over a listed batch: item `k`'s object gets one release revision exactly when the item
   is due, no earlier item's Update failed, and the server applies this one; otherwise that object
   is as before. Objects that were not listed are untouched (`NamesNotListed`).
   */
  lemma {:induction false} TickReleasesExactly(objects: Objects, items: seq<Snapshot>, turns: seq<Turn>, k: nat)
    requires |items| == |turns| && k < |items| && DistinctNames(items)
    ensures var item := items[k];
            var after := ClearItems(objects, items, false, turns).objects;
            if Due(item, turns[k]) && Reached(objects, items, turns, k) && Applies(objects, item, turns[k].fault)
            then item.name in after &&
                 after[item.name] == objects[item.name].(revisions :=
                   objects[item.name].revisions + [Revision(Undeferred(item.content), Released(turns[k].at))])
            else (item.name in after <==> item.name in objects) &&
                 (item.name in objects ==> after[item.name] == objects[item.name])
  {
    var t := ClearItem(objects, items[0], false, turns[0].at, turns[0].fault);
    assert t.failed == UpdateFails(objects, items[0], turns[0]);
    if k == 0 {
      NamesNotListed(t.objects, items[1..], t.failed, turns[1..], items[0].name);
    } else if t.failed {
      FailedTickStops(t.objects, items[1..], turns[1..]);
      ClearItemLocal(objects, items[0], false, turns[0].at, turns[0].fault, items[k].name);
      assert !Reached(objects, items, turns, k);
    } else {
      forall j | 0 < j < |items|
        ensures UpdateFails(objects, items[j], turns[j]) == UpdateFails(t.objects, items[j], turns[j])
        ensures Applies(objects, items[j], turns[j].fault) == Applies(t.objects, items[j], turns[j].fault)
      {
        ClearItemLocal(objects, items[0], false, turns[0].at, turns[0].fault, items[j].name);
        FailureIsLocal(objects, t.objects, items[j], turns[j]);
      }
      TickReleasesExactly(t.objects, items[1..], turns[1..], k - 1);
      ClearItemLocal(objects, items[0], false, turns[0].at, turns[0].fault, items[k].name);
      assert Reached(t.objects, items[1..], turns[1..], k - 1) == Reached(objects, items, turns, k) by {
        forall j | 0 <= j < k - 1
          ensures UpdateFails(t.objects, items[1..][j], turns[1..][j]) ==
                    UpdateFails(objects, items[j + 1], turns[j + 1])
        {
        }
        if Reached(t.objects, items[1..], turns[1..], k - 1) {
          forall j | 0 <= j < k
            ensures !UpdateFails(objects, items[j], turns[j])
          {
            if j > 0 {
              assert items[1..][j - 1] == items[j] && turns[1..][j - 1] == turns[j];
            }
          }
        }
      }
    }
  }
}
