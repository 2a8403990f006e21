/**
 * The latest-pose store of `HandGestureModel`: the most recent tracked hand anchor of
 * each side, and the update loop that feeds it from the provider's anchor updates.
 */
module HandStore {
  import opened Optional
  import opened ARKit

  /** `HandsUpdates`: the latest anchor seen for each hand, if any. */
  datatype HandsUpdates = HandsUpdates(left: Option<HandAnchor>, right: Option<HandAnchor>) {
    /** The slot of hand `c`. */
    function Side(c: Chirality): Option<HandAnchor>
    {
      match c
      case Left => left
      case Right => right
    }

    /** Every stored anchor is tracked and sits in the slot of its own chirality. */
    predicate Valid()
    {
      (left.Some? ==> left.value.isTracked && left.value.chirality == Left) &&
      (right.Some? ==> right.value.isTracked && right.value.chirality == Right)
    }
  }

  /** `.init(left: nil, right: nil)`: no hand seen yet. */
  const NoHands: HandsUpdates := HandsUpdates(None, None)

  /** Update `u` is one the store keeps for hand `c`: a tracked `.updated` anchor of that hand. */
  predicate Stores(u: AnchorUpdate, c: Chirality)
  {
    u.event == Updated && u.anchor.isTracked && u.anchor.chirality == c
  }

  /**
   * One pass of the body of the update loop: a tracked `.updated` anchor replaces the
   * slot of its chirality; an untracked anchor and every other event are skipped.
   */
  function Step(h: HandsUpdates, u: AnchorUpdate): (r: HandsUpdates)
    ensures r.Side(Left) == if Stores(u, Left) then Some(u.anchor) else h.Side(Left)
    ensures r.Side(Right) == if Stores(u, Right) then Some(u.anchor) else h.Side(Right)
    ensures h.Valid() ==> r.Valid()
  {
    match u.event
    case Updated =>
      if !u.anchor.isTracked then h
      else (
        match u.anchor.chirality
        case Left => h.(left := Some(u.anchor))
        case Right => h.(right := Some(u.anchor)))
    case _ => h
  }

  /** The store after the updates `us`, applied in order, starting from `h`. */
  function Fold(h: HandsUpdates, us: seq<AnchorUpdate>): (r: HandsUpdates)
    ensures h.Valid() ==> r.Valid()
    decreases |us|
  {
    if us == [] then h else Step(Fold(h, us[..|us| - 1]), us[|us| - 1])
  }

  /** The anchor of the last update in `us` that the store keeps for hand `c`, if any. */
  function LastStored(us: seq<AnchorUpdate>, c: Chirality): Option<HandAnchor>
    decreases |us|
  {
    if us == [] then None
    else if Stores(us[|us| - 1], c) then Some(us[|us| - 1].anchor)
    else LastStored(us[..|us| - 1], c)
  }

  /**
   * After any sequence of updates, a slot holds the anchor of the last update kept for
   * its hand, or what it held before when there was none.
   */
  lemma {:induction false} FoldLastWins(h: HandsUpdates, us: seq<AnchorUpdate>, c: Chirality)
    ensures Fold(h, us).Side(c) == if LastStored(us, c).Some? then LastStored(us, c) else h.Side(c)
    decreases |us|
  {
    if us != [] {
      FoldLastWins(h, us[..|us| - 1], c);
    }
  }

  /** Starting with no hands, each slot holds exactly the last kept anchor of its hand. */
  lemma {:induction false} FromNoHands(us: seq<AnchorUpdate>)
    ensures Fold(NoHands, us).left == LastStored(us, Left)
    ensures Fold(NoHands, us).right == LastStored(us, Right)
  {
    FoldLastWins(NoHands, us, Left);
    FoldLastWins(NoHands, us, Right);
  }

  /**
   * `LastStored` is the last kept update: it is absent exactly when no update is kept
   * for `c`, and otherwise it is the anchor of some kept update after which none is kept.
   */
  lemma {:induction false} LastStoredIsLast(us: seq<AnchorUpdate>, c: Chirality)
    ensures LastStored(us, c).None? <==> forall i :: 0 <= i < |us| ==> !Stores(us[i], c)
    ensures LastStored(us, c).Some? ==>
      exists i :: 0 <= i < |us| && Stores(us[i], c) && us[i].anchor == LastStored(us, c).value &&
        forall j :: i < j < |us| ==> !Stores(us[j], c)
    decreases |us|
  {
    if us != [] {
      var init := us[..|us| - 1];
      LastStoredIsLast(init, c);
      if !Stores(us[|us| - 1], c) {
        assert forall i :: 0 <= i < |init| ==> init[i] == us[i];
        if LastStored(init, c).Some? {
          var i :| 0 <= i < |init| && Stores(init[i], c) && init[i].anchor == LastStored(init, c).value &&
            forall j :: i < j < |init| ==> !Stores(init[j], c);
          assert forall j :: i < j < |us| ==> !Stores(us[j], c);
        }
      }
    }
  }

  /** An untracked anchor, and any event but `.updated`, leaves the store as it was. */
  lemma SkippedUpdate(h: HandsUpdates, u: AnchorUpdate)
    requires u.event != Updated || !u.anchor.isTracked
    ensures Step(h, u) == h
  {
  }

  /** A kept update of hand `c` replaces slot `c` and leaves the other slot as it was. */
  lemma KeptUpdate(h: HandsUpdates, u: AnchorUpdate, c: Chirality, other: Chirality)
    requires Stores(u, c) && other != c
    ensures Step(h, u).Side(c) == Some(u.anchor)
    ensures Step(h, u).Side(other) == h.Side(other)
  {
  }

  /** `HandGestureModel`, reduced to the state its update loop writes. */
  class HandGestureModel {
    /** `latestHandTracking` */
    var latestHandTracking: HandsUpdates

    constructor ()
      ensures latestHandTracking == NoHands
    {
      latestHandTracking := HandsUpdates(None, None);
    }

    /** The body of the loop in `publishHandTrackingUpdates`, for one update. */
    method Apply(update: AnchorUpdate)
      modifies this
      ensures latestHandTracking == Step(old(latestHandTracking), update)
    {
      match update.event {
        case Updated =>
          var anchor := update.anchor;
          if !anchor.isTracked {
            return;
          }
          if anchor.chirality == Left {
            latestHandTracking := latestHandTracking.(left := Some(anchor));
          } else if anchor.chirality == Right {
            latestHandTracking := latestHandTracking.(right := Some(anchor));
          }
        case _ =>
      }
    }

    /** `publishHandTrackingUpdates`, over a finite sequence of updates. */
    method PublishHandTrackingUpdates(updates: seq<AnchorUpdate>)
      modifies this
      ensures latestHandTracking == Fold(old(latestHandTracking), updates)
      ensures old(latestHandTracking).Valid() ==> latestHandTracking.Valid()
    {
      for i := 0 to |updates|
        invariant latestHandTracking == Fold(old(latestHandTracking), updates[..i])
      {
        Apply(updates[i]);
        assert updates[..i + 1][..i] == updates[..i];
      }
      assert updates[..|updates|] == updates;
    }
  }
}
