/**
 * A vendor booking and its payment bookkeeping (model/Booking.java): the remaining balance is
 * kept equal to the total cost minus the amount paid, and recording a payment moves the
 * payment status to PAID or PARTIALLY_PAID.
 */
module Bookings {
  import opened Wrappers
  import opened Tasks

  /** Only the two constants the transitions set are named. */
  datatype BookingStatus = Confirmed | Cancelled | OtherStatus(name: string)

  datatype PaymentStatus = Pending | PartiallyPaid | Paid | Refunded | PaymentCancelled

  /**
   * The payment status after `setAmountPaid(paid)` on a booking of total `total` whose status
   * was `status`: paid in full (or more), partly paid, or, for no payment, as it was.
   */
  function StatusAfterPayment(status: Option<PaymentStatus>, total: real, paid: real): (r: Option<PaymentStatus>)
    ensures paid >= total ==> r == Some(Paid)
    ensures paid < total && paid > 0.0 ==> r == Some(PartiallyPaid)
    ensures paid < total && paid <= 0.0 ==> r == status
  {
    var remaining := total - paid;
    if remaining <= 0.0 then Some(Paid)
    else if paid > 0.0 then Some(PartiallyPaid)
    else status
  }

  class Booking {
    var bookingId: Option<string>
    var coupleId: Option<string>
    var vendorId: Option<string>
    var serviceId: Option<string>
    var date: Option<Date>
    var status: Option<BookingStatus>
    var totalCost: real
    var paymentStatus: Option<PaymentStatus>
    var amountPaid: real
    var remainingBalance: real

    /** What every constructor and setter of the payment fields keeps. */
    predicate Balanced()
      reads this
    {
      remainingBalance == totalCost - amountPaid
    }

    /** `new Booking()`: every reference field null, every number 0. */
    constructor ()
      ensures Balanced() && totalCost == 0.0 && amountPaid == 0.0 && remainingBalance == 0.0
      ensures bookingId == None && coupleId == None && vendorId == None && serviceId == None
      ensures date == None && status == None && paymentStatus == None
    {
      bookingId, coupleId, vendorId, serviceId := None, None, None, None;
      date, status, paymentStatus := None, None, None;
      totalCost, amountPaid, remainingBalance := 0.0, 0.0, 0.0;
    }

    /** The full constructor: nothing paid yet, so the whole cost remains and the payment is pending. */
    constructor Full(bookingId: Option<string>, coupleId: Option<string>, vendorId: Option<string>,
                     serviceId: Option<string>, date: Option<Date>, status: Option<BookingStatus>,
                     totalCost: real)
      ensures Balanced() && paymentStatus == Some(Pending)
      ensures amountPaid == 0.0 && remainingBalance == totalCost && this.totalCost == totalCost
      ensures this.bookingId == bookingId && this.coupleId == coupleId && this.vendorId == vendorId
      ensures this.serviceId == serviceId && this.date == date && this.status == status
    {
      this.bookingId := bookingId;
      this.coupleId := coupleId;
      this.vendorId := vendorId;
      this.serviceId := serviceId;
      this.date := date;
      this.status := status;
      this.totalCost := totalCost;
      paymentStatus := Some(Pending);
      amountPaid := 0.0;
      remainingBalance := totalCost;
    }

    /** A new total recomputes the balance but leaves the payment status as it was. */
    method SetTotalCost(totalCost: real)
      modifies this`totalCost, this`remainingBalance
      ensures Balanced() && this.totalCost == totalCost
      ensures remainingBalance == totalCost - amountPaid
    {
      this.totalCost := totalCost;
      remainingBalance := totalCost - amountPaid;
    }

    /**
     * Records the amount paid so far: the balance is recomputed (and may go negative, as
     * overpayment is not clamped) and the payment status follows `StatusAfterPayment`.
     */
    method SetAmountPaid(amountPaid: real)
      modifies this`amountPaid, this`remainingBalance, this`paymentStatus
      ensures Balanced() && this.amountPaid == amountPaid
      ensures remainingBalance == totalCost - amountPaid
      ensures paymentStatus == StatusAfterPayment(old(paymentStatus), totalCost, amountPaid)
    {
      this.amountPaid := amountPaid;
      remainingBalance := totalCost - amountPaid;
      if remainingBalance <= 0.0 {
        paymentStatus := Some(Paid);
      } else if amountPaid > 0.0 {
        paymentStatus := Some(PartiallyPaid);
      }
    }

    method ConfirmBooking()
      modifies this`status
      ensures status == Some(Confirmed)
    {
      status := Some(Confirmed);
    }

    method CancelBooking()
      modifies this`status
      ensures status == Some(Cancelled)
    {
      status := Some(Cancelled);
    }
  }

  /** Paying more than the total leaves a negative balance and the status PAID. */
  lemma OverpaymentIsNotClamped(status: Option<PaymentStatus>, total: real, paid: real)
    requires paid > total
    ensures total - paid < 0.0
    ensures StatusAfterPayment(status, total, paid) == Some(Paid)
  {
  }

  /** Recording the same payment again changes nothing. */
  lemma PaymentIsIdempotent(status: Option<PaymentStatus>, total: real, paid: real)
    ensures StatusAfterPayment(StatusAfterPayment(status, total, paid), total, paid)
            == StatusAfterPayment(status, total, paid)
  {
  }

  /**
   * Once any payment is recorded the status is PAID or PARTIALLY_PAID, whatever it was before;
   * a status set by hand (REFUNDED, CANCELLED) survives only a zero payment on an unpaid total.
   */
  lemma PaymentStatusAfterPositive(status: Option<PaymentStatus>, total: real, paid: real)
    requires paid > 0.0
    ensures StatusAfterPayment(status, total, paid) in {Some(Paid), Some(PartiallyPaid)}
  {
  }
}
