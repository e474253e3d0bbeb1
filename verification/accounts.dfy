/**
 * The `User` record of routes.py: what its constructor stores, and how the
 * stored e-mail address is later matched at login.
 */
module Accounts {
  import opened TextCase

  /**
   * A user account as the constructor leaves it. The password itself is
   * never stored, only what the hashing primitive makes of it; that
   * primitive is opaque (and salted), so it is a parameter here.
   */
  class User {
    var firstname: string
    var lastname: string
    var email: string
    var pwdhash: string

    /** The names are title-cased and the address lowered. */
    ghost predicate Normalized()
      reads this
    {
      firstname == Title(firstname) && lastname == Title(lastname) && email == Lower(email)
    }

    constructor (firstname: string, lastname: string, email: string, password: string, hash: string -> string)
      ensures this.firstname == Title(firstname) && this.lastname == Title(lastname)
      ensures this.email == Lower(email)
      ensures pwdhash == hash(password)
      ensures Normalized()
    {
      this.firstname := Title(firstname);
      this.lastname := Title(lastname);
      this.email := Lower(email);
      pwdhash := "";
      new;
      TitleIdempotent(firstname);
      TitleIdempotent(lastname);
      LowerIdempotent(email);
      SetPassword(password, hash);
    }

    /** `set_password`: replace the stored hash and nothing else. */
    method SetPassword(password: string, hash: string -> string)
      modifies this`pwdhash
      ensures pwdhash == hash(password)
      ensures firstname == old(firstname) && lastname == old(lastname) && email == old(email)
    {
      pwdhash := hash(password);
    }
  }

  /** The account lookup at login as written: the typed address must equal the stored one. */
  predicate LoginFindsAsWritten(stored: string, typed: string)
  {
    stored == typed
  }

  /**
   * Signing up with capitals and logging in with the very same address finds
   * no account: the constructor stored `Lower(typed)`.
   */
  lemma MixedCaseLoginMisses(typed: string)
    requires typed == "Ann@Example.com"
    ensures !LoginFindsAsWritten(Lower(typed), typed)
  {
    assert Lower(typed)[0] == 'a' != typed[0];
  }

  /** The lookup the signup normalisation calls for: lower the typed address as signup did. */
  predicate LoginFinds(stored: string, typed: string)
  {
    stored == Lower(typed)
  }

  /**
   * With the corrected lookup, an account created from one address is found
   * from exactly those addresses that differ from it only in ASCII case,
   * the address typed at signup included.
   */
  lemma LoginFindsCaseVariants(signedUp: string, typed: string)
    ensures LoginFinds(Lower(signedUp), signedUp)
    ensures LoginFinds(Lower(signedUp), typed) <==>
      |typed| == |signedUp| && forall i :: 0 <= i < |typed| ==> LowerChar(typed[i]) == LowerChar(signedUp[i])
  {
    LowerEqualIff(signedUp, typed);
  }

  /**
   * For an account in the form the constructor leaves it, the corrected
   * lookup finds every address the lookup as written finds, and an address
   * finds it exactly when it agrees with the stored one up to ASCII case.
   */
  lemma NormalizedUserLogin(u: User, typed: string)
    requires u.Normalized()
    ensures LoginFindsAsWritten(u.email, typed) ==> LoginFinds(u.email, typed)
    ensures LoginFinds(u.email, typed) <==>
      |typed| == |u.email| && forall i :: 0 <= i < |typed| ==> LowerChar(typed[i]) == LowerChar(u.email[i])
  {
    LowerEqualIff(u.email, typed);
  }
}
