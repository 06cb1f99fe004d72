// The confirmed-plans page: the list loaded from the server, the pending
// delete and its confirmation, and the labels that show a plan's number to
// the user (one more than the stored, zero-based `plan_number`).

module ConfirmedPlans {
  import opened Wrappers
  import opened Text
  import PdfLayout

  /** A stored plan, as the page reads it. `items` lists each plan item's activities. */
  datatype SavedPlan = SavedPlan(
    id: string,
    planNumber: nat,
    packageIds: seq<string>,
    items: seq<seq<string>>)

  /** What loading the list ends with: the parsed body's `confirmed_plans` field, or an exception. */
  datatype FetchOutcome = Received(confirmedPlans: Option<seq<SavedPlan>>) | FetchFailed

  /** What the delete request ends with: an ok response, a response that is not ok, or an exception. */
  datatype DeleteOutcome = Deleted | Refused | DeleteFailed

  const DeleteRefusedAlert := "Failed to delete " + "the plan."
  const DeleteErrorAlert := "Error deleting " + "the plan."

  // ---------------------------------------------------------------------------
  // removing a plan from the list

  /** `plans.filter(p => p._id !== id)`. */
  function RemoveById(plans: seq<SavedPlan>, id: string): (r: seq<SavedPlan>)
    ensures |r| <= |plans|
    ensures forall p | p in r :: p in plans && p.id != id
  {
    if plans == [] then []
    else
      var last := plans[|plans| - 1];
      RemoveById(plans[..|plans| - 1], id) + (if last.id != id then [last] else [])
  }

  /** A plan survives exactly when it was listed and carries another id. */
  lemma {:induction false} RemoveByIdMembers(plans: seq<SavedPlan>, id: string, p: SavedPlan)
    ensures p in RemoveById(plans, id) <==> p in plans && p.id != id
  {
    if plans != [] {
      var init := plans[..|plans| - 1];
      RemoveByIdMembers(init, id, p);
      assert plans == init + [plans[|plans| - 1]];
    }
  }

  /**
    The survivors keep their original order: survivor `k` is plan `pos[k]`,
    and the positions increase.
  */
  lemma {:induction false} RemoveByIdInOrder(plans: seq<SavedPlan>, id: string) returns (pos: seq<nat>)
    ensures var r := RemoveById(plans, id);
      && |pos| == |r|
      && (forall k | 0 <= k < |pos| :: pos[k] < |plans| && r[k] == plans[pos[k]])
      && (forall k, l | 0 <= k < l < |pos| :: pos[k] < pos[l])
  {
    if plans == [] {
      pos := [];
    } else {
      var init := plans[..|plans| - 1];
      pos := RemoveByIdInOrder(init, id);
      if plans[|plans| - 1].id != id {
        pos := pos + [|plans| - 1];
      }
    }
  }

  /** How many listed plans carry the id. */
  function CountId(plans: seq<SavedPlan>, id: string): (n: nat)
    ensures n <= |plans|
  {
    if plans == [] then 0
    else CountId(plans[..|plans| - 1], id) + (if plans[|plans| - 1].id == id then 1 else 0)
  }

  /**
    Exactly the plans carrying the id are removed: with the order lemma, the
    survivors are all the other plans.
  */
  lemma {:induction false} RemoveByIdCount(plans: seq<SavedPlan>, id: string)
    ensures |RemoveById(plans, id)| == |plans| - CountId(plans, id)
  {
    if plans != [] {
      RemoveByIdCount(plans[..|plans| - 1], id);
    }
  }

  /** When no listed plan carries the id, nothing is removed. */
  lemma {:induction false} RemoveByIdAbsent(plans: seq<SavedPlan>, id: string)
    requires forall p | p in plans :: p.id != id
    ensures RemoveById(plans, id) == plans
  {
    if plans != [] {
      var init, last := plans[..|plans| - 1], plans[|plans| - 1];
      assert plans == init + [last];
      assert last in plans;
      RemoveByIdAbsent(init, id);
      assert RemoveById(plans, id) == init + [last];
    }
  }

  /** No two listed plans share an id. */
  predicate DistinctIds(plans: seq<SavedPlan>) {
    forall i, j | 0 <= i < j < |plans| :: plans[i].id != plans[j].id
  }

  /** Removing plans keeps the ids of the rest distinct. */
  lemma RemoveByIdKeepsDistinct(plans: seq<SavedPlan>, id: string)
    requires DistinctIds(plans)
    ensures DistinctIds(RemoveById(plans, id))
  {
    var r := RemoveById(plans, id);
    var pos := RemoveByIdInOrder(plans, id);
    forall i, j | 0 <= i < j < |r| ensures r[i].id != r[j].id {
      assert r[i] == plans[pos[i]] && r[j] == plans[pos[j]] && pos[i] < pos[j];
    }
  }

  // ---------------------------------------------------------------------------
  // the plan number as the user sees it

  /**
    The card heading and the PDF title, `Trip Plan #${plan_number + 1}`:
    the fixed prefix, then digits that read back as one more than the
    stored plan number.
  */
  function Heading(p: SavedPlan): (h: string)
    ensures |h| > 11 && h[..11] == "Trip Plan #" && AllDigits(h[11..]) && DigitsValue(h[11..]) == p.planNumber + 1
  {
    var h := "Trip Plan #" + NatToString(p.planNumber + 1);
    assert h[11..] == NatToString(p.planNumber + 1);
    DigitsValueOfNatToString(p.planNumber + 1);
    h
  }

  /** The question the delete dialog asks; it names the plan by its heading. */
  function DeletePrompt(p: SavedPlan): (s: string)
    ensures Contains(s, Heading(p))
  {
    ContainsMiddle("Are you sure you " + "want to delete ", Heading(p), "?");
    "Are you sure you " + "want to delete " + Heading(p) + "?"
  }

  /**
    The name the PDF is saved under, for the ISO date `today`
    (`YYYY-MM-DD`): it carries one more than the stored plan number, as a
    run of digits between `TripPlan_` and the `_` before the date.
  */
  function PdfFileName(p: SavedPlan, today: string): (f: string)
    ensures var d := NatToString(p.planNumber + 1);
      && |f| > 9 + |d| && f[..9] == "TripPlan_" && f[9..9 + |d|] == d && f[9 + |d|] == '_'
      && AllDigits(d) && DigitsValue(d) == p.planNumber + 1
  {
    DigitsValueOfNatToString(p.planNumber + 1);
    "TripPlan_" + NatToString(p.planNumber + 1) + "_" + today + ".pdf"
  }

  /** Two plans get the same heading exactly when they have the same number. */
  lemma HeadingsTellPlansApart(p: SavedPlan, q: SavedPlan)
    ensures Heading(p) == Heading(q) <==> p.planNumber == q.planNumber
  {
    if Heading(p) == Heading(q) {
      assert Heading(p)[11..] == NatToString(p.planNumber + 1);
      assert Heading(q)[11..] == NatToString(q.planNumber + 1);
      NatToStringInjective(p.planNumber + 1, q.planNumber + 1);
    }
  }

  /** On one day, two plans get the same file name exactly when they have the same number. */
  lemma FileNamesTellPlansApart(p: SavedPlan, q: SavedPlan, today: string)
    ensures PdfFileName(p, today) == PdfFileName(q, today) <==> p.planNumber == q.planNumber
  {
    var d, e := NatToString(p.planNumber + 1), NatToString(q.planNumber + 1);
    var tail := "_" + today + ".pdf";
    if PdfFileName(p, today) == PdfFileName(q, today) {
      assert PdfFileName(p, today) == "TripPlan_" + d + tail;
      assert PdfFileName(q, today) == "TripPlan_" + e + tail;
      assert |d| == |e|;
      assert d == PdfFileName(p, today)[9..9 + |d|];
      assert e == PdfFileName(q, today)[9..9 + |e|];
      NatToStringInjective(p.planNumber + 1, q.planNumber + 1);
    }
  }

  /**
    The download button: the PDF is titled with the plan's heading, laid
    out from the plan's items, and saved under the plan's file name.
  */
  method DownloadPdf(p: SavedPlan, pageHeight: int, today: string)
    returns (title: string, sheet: PdfLayout.Sheet, fileName: string)
    ensures title == Heading(p) && fileName == PdfFileName(p, today)
    ensures sheet == PdfLayout.Layout(pageHeight, p.items)
  {
    title := Heading(p);
    sheet := PdfLayout.ExportPlan(pageHeight, p.items);
    fileName := PdfFileName(p, today);
  }

  // ---------------------------------------------------------------------------
  // the page's state

  /**
    The page's state: the listed plans, whether the list is loading, the
    plan awaiting delete confirmation, and the alerts shown so far.
  */
  class PlansPage {
    var plans: seq<SavedPlan>
    var loading: bool
    var planToDelete: Option<SavedPlan>
    var alerts: seq<string>

    constructor ()
      ensures plans == [] && loading && planToDelete == None && alerts == []
    {
      plans := [];
      loading := true;
      planToDelete := None;
      alerts := [];
    }

    /**
      Loading the list: the received `confirmed_plans`, or the empty list
      when the field is missing; a failure keeps the list. Loading is over
      on every path.
    */
    method FetchPlans(outcome: FetchOutcome)
      modifies this`plans, this`loading
      ensures !loading
      ensures outcome.Received? && outcome.confirmedPlans.Some? ==> plans == outcome.confirmedPlans.value
      ensures outcome.Received? && outcome.confirmedPlans.None? ==> plans == []
      ensures outcome.FetchFailed? ==> plans == old(plans)
    {
      loading := true;
      match outcome {
        case Received(confirmed) =>
          plans := if confirmed.Some? then confirmed.value else [];
        case FetchFailed =>
      }
      loading := false;
    }

    /** The trash button on a card: the plan awaits confirmation. */
    method AskDelete(p: SavedPlan)
      modifies this`planToDelete
      ensures planToDelete == Some(p)
    {
      planToDelete := Some(p);
    }

    /** Cancel, or a click outside the dialog: nothing awaits confirmation. */
    method CancelDelete()
      modifies this`planToDelete
      ensures planToDelete == None
    {
      planToDelete := None;
    }

    /**
      The dialog's Delete button. Without a pending plan nothing happens.
      Otherwise an ok response removes every listed plan with the pending
      plan's id, a refused or failed request keeps the list and raises an
      alert, and the pending plan is cleared on every path.
    */
    method ConfirmDelete(outcome: DeleteOutcome)
      modifies this`plans, this`planToDelete, this`alerts
      ensures planToDelete == None
      ensures old(planToDelete).None? ==> plans == old(plans) && alerts == old(alerts)
      ensures old(planToDelete).Some? && outcome.Deleted? ==>
        && plans == RemoveById(old(plans), old(planToDelete).value.id)
        && (forall p | p in plans :: p.id != old(planToDelete).value.id)
        && alerts == old(alerts)
      ensures old(planToDelete).Some? && outcome.Refused? ==>
        plans == old(plans) && alerts == old(alerts) + [DeleteRefusedAlert]
      ensures old(planToDelete).Some? && outcome.DeleteFailed? ==>
        plans == old(plans) && alerts == old(alerts) + [DeleteErrorAlert]
      ensures old(DistinctIds(plans)) ==> DistinctIds(plans)
    {
      if planToDelete.None? {
        return;
      }
      var id := planToDelete.value.id;
      match outcome {
        case Deleted =>
          if DistinctIds(plans) {
            RemoveByIdKeepsDistinct(plans, id);
          }
          plans := RemoveById(plans, id);
        case Refused =>
          alerts := alerts + [DeleteRefusedAlert];
        case DeleteFailed =>
          alerts := alerts + [DeleteErrorAlert];
      }
      planToDelete := None;
    }
  }
}
