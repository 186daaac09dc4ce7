/**
 * The account roles (enums/UserRole.java) and `fromString`, which parses a role name in any
 * letter case and answers null, not an exception, for anything else.
 */
module UserRoles {
  import opened Wrappers
  import opened Text

  datatype UserRole = Admin | Couple | Vendor

  /** `name()`: the constant as declared. */
  function Name(role: UserRole): (r: string)
    ensures r != [] && Upper(r) == r
  {
    match role
    case Admin => "ADMIN"
    case Couple => "COUPLE"
    case Vendor => "VENDOR"
  }

  /** `valueOf`: the constant with exactly this name, or `None` where Java throws. */
  function ValueOf(name: string): (r: Option<UserRole>)
    ensures forall role :: r == Some(role) <==> Name(role) == name
  {
    if name == "ADMIN" then Some(Admin)
    else if name == "COUPLE" then Some(Couple)
    else if name == "VENDOR" then Some(Vendor)
    else None
  }

  /** `fromString`: null for null, otherwise the role whose name the upper-cased value is, if any. */
  function FromString(value: Option<string>): (r: Option<UserRole>)
    ensures value.None? ==> r.None?
    ensures value.Some? ==> forall role :: r == Some(role) <==> Upper(value.value) == Name(role)
  {
    if value.None? then None else ValueOf(Upper(value.value))
  }

  /** Parsing ignores letter case: a value and its upper-cased form parse alike. */
  lemma FromStringIgnoresCase(s: string, t: string)
    requires Upper(s) == Upper(t)
    ensures FromString(Some(s)) == FromString(Some(t))
    ensures FromString(Some(s)) == FromString(Some(Upper(s)))
  {
    CaseMappingIdempotent(s);
  }

  /** Every role parses back from its own name. */
  lemma FromStringRoundTrip(role: UserRole)
    ensures FromString(Some(Name(role))) == Some(role)
  {
  }

  /** A string that is no role name in any case parses to `None`. */
  lemma FromStringRejectsOthers(s: string)
    requires forall role :: Upper(s) != Name(role)
    ensures FromString(Some(s)) == None
  {
  }

  /** "vendor" and "Vendor" name the vendor role, as "VENDOR" does. */
  lemma FromStringLowerCase()
    ensures FromString(Some("vendor")) == Some(Vendor)
  {
    assert Upper("vendor") == "VENDOR" by {
      assert forall i :: 0 <= i < 6 ==> Upper("vendor")[i] == "VENDOR"[i];
    }
  }

  lemma FromStringCapitalised()
    ensures FromString(Some("Vendor")) == Some(Vendor)
  {
    assert Upper("Vendor") == "VENDOR" by {
      assert forall i :: 0 <= i < 6 ==> Upper("Vendor")[i] == "VENDOR"[i];
    }
  }

  /** A near miss such as "vendors" names no role. */
  lemma FromStringNearMiss()
    ensures FromString(Some("vendors")) == None
  {
    assert |Upper("vendors")| == 7;
  }
}
