/**
 * A client of the model: the sign-up, publish and delete sequence of the
 * feed, showing what callers can conclude from the contracts alone.
 */
module Scenario {
  import opened Wrappers
  import opened Constraints
  import opened Entity
  import opened Security
  import opened State

  /** The sign-up payload of Alice passes the creation constraints. */
  lemma AliceSignUpIsValid()
    ensures LoginValid(Some("alice123"), CreateGroups)
    ensures PlainPasswordValid(Some("Passw0rd"), CreateGroups)
  {
    var pw := "Passw0rd";
    assert InClass(pw[0], Upper) && InClass(pw[1], Lower) && InClass(pw[5], Digit);
    PlainPasswordOnCreate(Some(pw));
  }

  /**
   * Alice signs up: the password is hashed into `hash` (the hasher's output)
   * and the plaintext is erased.
   */
  method SignUpAlice(hash: string) returns (alice: Utilisateur)
    ensures fresh(alice)
    ensures alice.login == Some("alice123") && alice.mail == Some("a@x.com")
    ensures alice.password == Some(hash) && alice.plainPassword == None
    ensures alice.roles == [] && alice.publications == []
  {
    alice := new Utilisateur();
    var _ := alice.SetLogin("alice123");
    var _ := alice.SetMail("a@x.com");
    alice.SetPlainPassword(Some("Passw0rd"));
    alice.SetPassword(Some(hash));
    alice.EraseCredentials();
  }

  /** Alice publishes "hello world" through the author binder. */
  method Publish(alice: Utilisateur, now: Instant) returns (draft: Publication, inner: RecordingProcessor)
    ensures fresh(draft) && fresh(inner)
    ensures draft.auteurSet && draft.GetAuteur() == alice
    ensures draft.GetMessage() == Some("hello world") && draft.GetDatePublication() == Some(now)
    ensures |inner.calls| == 1 && inner.calls[0].data == draft && inner.calls[0].authorAtCall == alice
    ensures inner.calls[0].messageAtCall == Some("hello world") && inner.calls[0].dateAtCall == Some(now)
  {
    draft := new Publication(now);
    var _ := draft.SetMessage("hello world");
    inner := new RecordingProcessor();
    var storage := new TokenStorage(Some(Token(alice)));
    var setter := new PublicationUserSetter(inner, storage);
    setter.Process(draft, Operation("post"), map[], map[]);
  }

  /**
   * Alice signs up and publishes; anyone authenticated may publish; Bob may
   * not delete her publication, Alice may; the as-written delete rule fails
   * for both.
   */
  method PublishThenDelete(now: Instant, hash: string)
  {
    var alice := SignUpAlice(hash);
    var bob := new Utilisateur();
    UserAccessMeaning(DeleteUser, alice, alice);
    UserAccessMeaning(DeleteUser, bob, alice);
    assert UserAccess(DeleteUser, alice, alice) && !UserAccess(DeleteUser, bob, alice);
    var draft, inner := Publish(alice, now);
    MessageMeaning(draft.message);
    assert MessageValid(draft.message);
    PublicationAccessMeaning(PostPublication, null, draft);
    PublicationAccessMeaning(DeletePublication, bob, draft);
    PublicationAccessMeaning(DeletePublication, alice, draft);
    assert PublicationAccess(PostPublication, null, draft) == Denied;
    assert PublicationAccess(DeletePublication, bob, draft) == Denied;
    assert PublicationAccess(DeletePublication, alice, draft) == Granted;
    assert PublicationAccessAsWritten(DeletePublication, alice, draft) == ExpressionError;
  }
}
