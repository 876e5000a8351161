/**
 * The two entities of the feed: a user (`Utilisateur`) and a publication,
 * linked both ways (the user's `publications` collection and the
 * publication's `Auteur`). They refer to each other, so they share a module.
 * Identifiers are generated by the database and are only read here.
 */
module Entity {
  import opened Wrappers
  import opened Collections

  /** A point in time, as the clock reading passed in by the caller. */
  type Instant = int

  /** The base role every user holds. */
  const RoleUser: string := "ROLE_USER"

  /**
   * The roles `getRoles` reports for stored roles `stored`:
   * `array_unique` of the stored roles with ROLE_USER appended.
   */
  function EffectiveRoles(stored: seq<string>): (r: seq<string>)
    ensures RoleUser in r
    ensures forall x :: x in r <==> x in stored || x == RoleUser
    ensures NoDuplicates(r)
    ensures |r| <= |stored| + 1
  {
    Unique(stored + [RoleUser])
  }

  /**
   * The effective roles are the distinct stored roles, in the order of their
   * first occurrence, followed by ROLE_USER unless it is already stored.
   */
  lemma EffectiveRolesShape(stored: seq<string>)
    ensures EffectiveRoles(stored) ==
      Unique(stored) + (if RoleUser in stored then [] else [RoleUser])
  {
    UniqueSnoc(stored, RoleUser);
  }

  /**
   * For stored roles without repeats, getRoles adds ROLE_USER at the end when
   * it is missing and is the stored list otherwise.
   */
  lemma EffectiveRolesOfDistinct(stored: seq<string>)
    requires NoDuplicates(stored)
    ensures EffectiveRoles(stored) ==
      if RoleUser in stored then stored else stored + [RoleUser]
  {
    EffectiveRolesShape(stored);
    UniqueOfDistinct(stored);
  }

  class Utilisateur {
    var id: Option<int>
    var login: Option<string>
    var mail: Option<string>
    /** The password hash, opaque here. */
    var password: Option<string>
    var plainPassword: Option<string>
    var roles: seq<string>
    var publications: seq<Publication>

    /** A new user: every field null, no stored role, no publication. */
    constructor ()
      ensures id == None && login == None && mail == None
      ensures password == None && plainPassword == None
      ensures roles == [] && publications == []
      ensures GetRoles() == [RoleUser]
    {
      id := None;
      login := None;
      mail := None;
      password := None;
      plainPassword := None;
      roles := [];
      publications := [];
    }

    function GetId(): Option<int> reads this { id }
    function GetLogin(): Option<string> reads this { login }
    function GetMail(): Option<string> reads this { mail }
    function GetPublications(): seq<Publication> reads this { publications }
    function GetPassword(): Option<string> reads this { password }
    function GetPlainPassword(): Option<string> reads this { plainPassword }

    /** The effective roles; the stored roles are only read. */
    function GetRoles(): seq<string> reads this { EffectiveRoles(roles) }

    /** The login; PHP's `string` return type faults when the login is null. */
    function GetUserIdentifier(): string
      reads this
      requires login.Some?
    {
      login.value
    }

    /** Every publication of the collection points back at this user. */
    ghost predicate OwnsAll()
      reads this, publications
    {
      forall q :: q in publications ==> q.auteurSet && q.auteur == this
    }

    method SetLogin(newLogin: string) returns (r: Utilisateur)
      modifies this`login
      ensures r == this && GetLogin() == Some(newLogin)
      ensures GetUserIdentifier() == newLogin
    {
      login := Some(newLogin);
      r := this;
    }

    method SetMail(newMail: string) returns (r: Utilisateur)
      modifies this`mail
      ensures r == this && GetMail() == Some(newMail)
    {
      mail := Some(newMail);
      r := this;
    }

    method SetPassword(newPassword: Option<string>)
      modifies this`password
      ensures GetPassword() == newPassword
    {
      password := newPassword;
    }

    method SetPlainPassword(newPlainPassword: Option<string>)
      modifies this`plainPassword
      ensures GetPlainPassword() == newPlainPassword
    {
      plainPassword := newPlainPassword;
    }

    method SetRoles(newRoles: seq<string>)
      modifies this`roles
      ensures roles == newRoles
      ensures GetRoles() == EffectiveRoles(newRoles)
    {
      roles := newRoles;
    }

    /** Drops the plaintext password; the hash and everything else stay. */
    method EraseCredentials()
      modifies this`plainPassword
      ensures GetPlainPassword() == None
      ensures password == old(password) && login == old(login) && mail == old(mail)
      ensures roles == old(roles) && publications == old(publications)
    {
      plainPassword := None;
    }

    /**
     * Adds `publication` unless it is already in the collection, and then
     * makes this user its author. Adding a member again changes nothing.
     */
    method AddPublication(publication: Publication) returns (r: Utilisateur)
      modifies this`publications, publication`auteur, publication`auteurSet
      ensures r == this
      ensures publications == AddIfAbsent(old(publications), publication)
      ensures publication in publications
      ensures publication !in old(publications) ==>
        publication.auteurSet && publication.GetAuteur() == this
      ensures publication in old(publications) ==>
        publication.auteur == old(publication.auteur)
        && publication.auteurSet == old(publication.auteurSet)
      ensures forall q :: q in old(publications) && q != publication ==>
        q.auteur == old(q.auteur) && q.auteurSet == old(q.auteurSet)
      ensures NoDuplicates(old(publications)) ==> NoDuplicates(publications)
      ensures old(OwnsAll()) ==> OwnsAll()
    {
      if publication !in publications {
        publications := publications + [publication];
        var _ := publication.SetAuteur(this);
      }
      r := this;
    }

    /**
     * Removes the first occurrence of `publication`; when there was one and
     * it still names this user as author, clears its author.
     */
    method RemovePublication(publication: Publication) returns (r: Utilisateur)
      requires publication in publications ==> publication.auteurSet
      modifies this`publications, publication`auteur, publication`auteurSet
      ensures r == this
      ensures publications == RemoveElement(old(publications), publication).0
      ensures publication in old(publications) && old(publication.auteur) == this ==>
        publication.auteur == null
      ensures !(publication in old(publications) && old(publication.auteur) == this) ==>
        publication.auteur == old(publication.auteur)
      ensures publication.auteurSet == old(publication.auteurSet)
      ensures forall q :: q in publications ==> q.auteur == old(q.auteur) || q == publication
      ensures NoDuplicates(old(publications)) ==>
        publication !in publications && NoDuplicates(publications)
      ensures old(OwnsAll()) && NoDuplicates(old(publications)) ==> OwnsAll()
    {
      var removal := RemoveElement(publications, publication);
      publications := removal.0;
      assert NoDuplicates(old(publications)) ==>
        publication !in publications && NoDuplicates(publications) by {
        if NoDuplicates(old(publications)) {
          RemoveFromDistinct(old(publications), publication);
        }
      }
      if removal.1 {
        if publication.GetAuteur() == this {
          var _ := publication.SetAuteur(null);
        }
      }
      r := this;
    }
  }

  class Publication {
    var id: Option<int>
    var message: Option<string>
    var datePublication: Option<Instant>
    var auteur: Utilisateur?
    /**
     * Whether `Auteur` has been assigned: the PHP property is typed and has
     * no default, so reading it before the first `setAuteur` faults.
     */
    var auteurSet: bool

    /** A new publication, stamped with the current time `now`. */
    constructor (now: Instant)
      ensures id == None && message == None && !auteurSet
      ensures GetDatePublication() == Some(now)
    {
      id := None;
      message := None;
      datePublication := None;
      auteur := null;
      auteurSet := false;
      new;
      var _ := SetDatePublication(now);
    }

    function GetId(): Option<int> reads this { id }
    function GetMessage(): Option<string> reads this { message }
    function GetDatePublication(): Option<Instant> reads this { datePublication }

    function GetAuteur(): Utilisateur?
      reads this
      requires auteurSet
    {
      auteur
    }

    method SetMessage(newMessage: string) returns (r: Publication)
      modifies this`message
      ensures r == this && GetMessage() == Some(newMessage)
    {
      message := Some(newMessage);
      r := this;
    }

    method SetDatePublication(date: Instant) returns (r: Publication)
      modifies this`datePublication
      ensures r == this && GetDatePublication() == Some(date)
    {
      datePublication := Some(date);
      r := this;
    }

    method SetAuteur(newAuteur: Utilisateur?) returns (r: Publication)
      modifies this`auteur, this`auteurSet
      ensures r == this && auteurSet && GetAuteur() == newAuteur
    {
      auteur := newAuteur;
      auteurSet := true;
      r := this;
    }
  }
}
