/** The counselling booking page: choose a session, confirm it in a dialog,
    see the confirmation, and start over. */
module CounselingSupport {
  import opened Wrappers

  datatype Plan = ThirtyMin | SixtyMin

  datatype Step = Select | Confirm | Success

  /** The texts the page shows for a plan: the session type and price in
      the dialog, and the length on the confirmation screen. */
  datatype PlanText = PlanText(session: string, price: string, duration: string)

  /** The dialog and the confirmation test only for the 30-minute plan, so
      anything else, even no plan at all, is shown as the hour. */
  function Shown(plan: Option<Plan>): (t: PlanText)
    ensures plan == Some(ThirtyMin) <==> t.price == "₹500"
    ensures plan == Some(ThirtyMin) <==> t.session == "30 Minutes"
    ensures plan == Some(ThirtyMin) <==> t.duration == "30-minute"
    ensures plan != Some(ThirtyMin) ==> t == PlanText("1 Hour", "₹900", "1-hour")
  {
    if plan == Some(ThirtyMin) then PlanText("30 Minutes", "₹500", "30-minute")
    else PlanText("1 Hour", "₹900", "1-hour")
  }

  /** The dialog repeats the price and label of the plan's own card. */
  lemma DialogMatchesPlan(plan: Plan)
    ensures plan == ThirtyMin ==> Shown(Some(plan)).price == "₹500" && Shown(Some(plan)).session == "30 Minutes"
    ensures plan == SixtyMin ==> Shown(Some(plan)).price == "₹900" && Shown(Some(plan)).session == "1 Hour"
  {
  }

  class Booking {
    var selectedPlan: Option<Plan>
    var bookingStep: Step

    /** Past the selection step a plan has always been chosen. */
    ghost predicate Valid()
      reads this
    {
      bookingStep != Select ==> selectedPlan.Some?
    }

    constructor ()
      ensures Valid()
      ensures selectedPlan.None? && bookingStep == Select
    {
      selectedPlan := None;
      bookingStep := Select;
    }

    /** A plan's "Book" button, on the selection page. */
    method HandleBook(plan: Plan)
      requires bookingStep == Select
      modifies this
      ensures Valid()
      ensures selectedPlan == Some(plan) && bookingStep == Confirm
    {
      selectedPlan := Some(plan);
      bookingStep := Confirm;
    }

    /** "Pay & Confirm" in the dialog; the simulated delay is not modelled. */
    method ConfirmBooking()
      requires Valid() && bookingStep == Confirm
      modifies this
      ensures Valid()
      ensures bookingStep == Success && selectedPlan == old(selectedPlan)
    {
      bookingStep := Success;
    }

    /** "Cancel" in the dialog: back to the plans, the choice still highlighted. */
    method Cancel()
      requires bookingStep == Confirm
      modifies this
      ensures Valid()
      ensures bookingStep == Select && selectedPlan == old(selectedPlan)
    {
      bookingStep := Select;
    }

    /** "Book Another Session" on the confirmation screen. */
    method BookAnother()
      requires bookingStep == Success
      modifies this
      ensures Valid()
      ensures bookingStep == Select && selectedPlan == old(selectedPlan)
    {
      bookingStep := Select;
    }
  }

  /** A full booking: the confirmation names the chosen plan, and starting
      over returns to the plans with that plan still selected. */
  method BookingRoundTrip(b: Booking, plan: Plan) returns (dialogPrice: string, confirmed: string)
    requires b.bookingStep == Select
    modifies b
    ensures dialogPrice == (if plan == ThirtyMin then "₹500" else "₹900")
    ensures confirmed == (if plan == ThirtyMin then "30-minute" else "1-hour")
    ensures b.bookingStep == Select && b.selectedPlan == Some(plan) && b.Valid()
  {
    b.HandleBook(plan);
    dialogPrice := Shown(b.selectedPlan).price;
    b.ConfirmBooking();
    confirmed := Shown(b.selectedPlan).duration;
    b.BookAnother();
  }
}
