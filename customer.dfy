/** The Customer entity: a status, a name, an email and a loyalty-point balance, all updated in place. */
module Customers {
  import opened Wrappers
  import opened Text
  import opened Identifiers
  import opened Emails

  datatype CustomerStatus = Active | Inactive | Suspended

  datatype CustomerError =
    | SuspendedEmailChange    // a suspended customer cannot change their email
    | BlankName
    | NonPositivePoints       // points to add must be positive
    | InactivePoints          // only an active customer earns points
    | NonPositiveUse          // points to use must be positive
    | InsufficientPoints

  /** The enum's `.value`. */
  function StatusName(s: CustomerStatus): string {
    match s
    case Active => "ACTIVE"
    case Inactive => "INACTIVE"
    case Suspended => "SUSPENDED"
  }

  /** Each status has its own name. */
  lemma StatusNamesDistinct(s: CustomerStatus, t: CustomerStatus)
    ensures StatusName(s) == StatusName(t) <==> s == t
  {
  }

  class Customer {
    const id: CustomerId
    var name: string
    var email: Email
    var status: CustomerStatus
    var loyaltyPoints: int

    /** The balance never goes below zero. */
    ghost predicate Valid()
      reads this
    {
      loyaltyPoints >= 0
    }

    /** A new customer is active and has no points; the name is not checked here. */
    constructor (id: CustomerId, name: string, email: Email)
      ensures Valid()
      ensures this.id == id && this.name == name && this.email == email
      ensures status == Active && loyaltyPoints == 0
    {
      this.id := id;
      this.name := name;
      this.email := email;
      status := Active;
      loyaltyPoints := 0;
    }

    /** `deactivate`: from any status. */
    method Deactivate()
      modifies this`status
      ensures status == Inactive
    {
      status := Inactive;
    }

    /** `change_email`: the current address is accepted whatever the status; a different one
        is refused while suspended. */
    method ChangeEmail(newEmail: Email) returns (r: Outcome<CustomerError>)
      modifies this`email
      ensures old(email) == newEmail ==> r == Pass && email == old(email)
      ensures old(email) != newEmail && status == Suspended ==> r == Fail(SuspendedEmailChange) && email == old(email)
      ensures old(email) != newEmail && status != Suspended ==> r == Pass && email == newEmail
    {
      if email == newEmail {
        return Pass;
      }
      if status == Suspended {
        return Fail(SuspendedEmailChange);
      }
      email := newEmail;
      r := Pass;
    }

    /** `change_name`: a blank name is refused; otherwise the name is stored as given. */
    method ChangeName(newName: string) returns (r: Outcome<CustomerError>)
      modifies this`name
      ensures r.Pass? <==> !IsBlank(newName)
      ensures r.Fail? ==> r.error == BlankName && name == old(name)
      ensures r.Pass? ==> name == newName
    {
      if IsBlank(newName) {
        return Fail(BlankName);
      }
      name := newName;
      r := Pass;
    }

    /** `add_loyalty_points`: the amount is checked before the status. */
    method AddLoyaltyPoints(points: int) returns (r: Outcome<CustomerError>)
      requires Valid()
      modifies this`loyaltyPoints
      ensures Valid()
      ensures points <= 0 ==> r == Fail(NonPositivePoints)
      ensures points > 0 && status != Active ==> r == Fail(InactivePoints)
      ensures r.Pass? <==> points > 0 && status == Active
      ensures loyaltyPoints == if r.Pass? then old(loyaltyPoints) + points else old(loyaltyPoints)
    {
      if points <= 0 {
        return Fail(NonPositivePoints);
      }
      if status != Active {
        return Fail(InactivePoints);
      }
      loyaltyPoints := loyaltyPoints + points;
      r := Pass;
    }

    /** `use_loyalty_points`: the status is not consulted. */
    method UseLoyaltyPoints(points: int) returns (r: Outcome<CustomerError>)
      requires Valid()
      modifies this`loyaltyPoints
      ensures Valid()
      ensures points <= 0 ==> r == Fail(NonPositiveUse)
      ensures points > 0 && points > old(loyaltyPoints) ==> r == Fail(InsufficientPoints)
      ensures r.Pass? <==> 0 < points <= old(loyaltyPoints)
      ensures loyaltyPoints == if r.Pass? then old(loyaltyPoints) - points else old(loyaltyPoints)
    {
      if points <= 0 {
        return Fail(NonPositiveUse);
      }
      if points > loyaltyPoints {
        return Fail(InsufficientPoints);
      }
      loyaltyPoints := loyaltyPoints - points;
      r := Pass;
    }

    /** `suspend`: already suspended is left as it is, so the call is idempotent. */
    method Suspend()
      modifies this`status
      ensures status == Suspended
    {
      if status == Suspended {
        return;
      }
      status := Suspended;
    }

    /** `activate`: idempotent in the same way. */
    method Activate()
      modifies this`status
      ensures status == Active
    {
      if status == Active {
        return;
      }
      status := Active;
    }

    /** `is_active`. */
    function IsActive(): (r: bool)
      reads this
      ensures r <==> status == Active
    {
      status == Active
    }

    /** `__eq__`: customers are the same entity when their ids are equal. */
    function SameAs(other: Customer): (r: bool)
      ensures r <==> id == other.id
    {
      id == other.id
    }
  }
}
