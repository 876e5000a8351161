/**
 * The access rules declared on the API operations of both resources, as
 * predicates over the caller (null when anonymous) and the target record.
 * Objects are compared by identity, as the ORM hands out one instance per
 * record in a request.
 */
module Security {
  import opened Entity

  datatype Decision = Granted | Denied | ExpressionError

  function FromBool(b: bool): Decision { if b then Granted else Denied }

  datatype UserOperation = ListUsers | GetUser | DeleteUser | PostUser | PatchUser

  datatype PublicationOperation =
    | ListPublications | GetPublication | DeletePublication | PostPublication
    | ListAuthorPublications  // the nested `/utilisateur/{idUtilisateur}/publications` listing

  /** `is_granted(role)`: an authenticated caller whose roles include `role`. */
  predicate IsGranted(role: string, caller: Utilisateur?)
    reads caller
  {
    caller != null && role in caller.GetRoles()
  }

  /**
   * `is_granted('ROLE_USER') and object == user`, where `object` is the
   * target record and `user` the caller.
   */
  predicate IsSelf(caller: Utilisateur?, target: Utilisateur)
    reads caller
  {
    IsGranted(RoleUser, caller) && target == caller
  }

  /** The user resource: reads and sign-up are open; delete and patch need the user themself. */
  predicate UserAccess(op: UserOperation, caller: Utilisateur?, target: Utilisateur)
    reads caller
  {
    match op
    case DeleteUser | PatchUser => IsSelf(caller, target)
    case ListUsers | GetUser | PostUser => true
  }

  /** `is_granted('ROLE_USER') and object.Auteur == user`, the evident intent of the delete rule. */
  predicate IsAuthor(caller: Utilisateur?, target: Publication)
    reads caller, target
    requires target.auteurSet
  {
    IsGranted(RoleUser, caller) && target.GetAuteur() == caller
  }

  /** The publication resource with the delete rule as intended. */
  function PublicationAccess(op: PublicationOperation, caller: Utilisateur?, target: Publication): Decision
    reads caller, target
    requires op == DeletePublication ==> target.auteurSet
  {
    match op
    case DeletePublication => FromBool(IsAuthor(caller, target))
    case PostPublication => FromBool(IsGranted(RoleUser, caller))
    case ListPublications | GetPublication | ListAuthorPublications => Granted
  }

  /**
   * The publication resource with the delete rule as written,
   * `is_granted('ROLE_USER') ans object.Auteur == user`: after the call the
   * expression language meets the name `ans`, which is no operator, and
   * rejects the expression, so evaluating the rule fails whatever the inputs.
   */
  function PublicationAccessAsWritten(op: PublicationOperation, caller: Utilisateur?, target: Publication): Decision
    reads caller, target
  {
    match op
    case DeletePublication => ExpressionError
    case PostPublication => FromBool(IsGranted(RoleUser, caller))
    case ListPublications | GetPublication | ListAuthorPublications => Granted
  }

  /** Every authenticated user passes the `is_granted('ROLE_USER')` half of a rule. */
  lemma AuthenticatedHoldsRoleUser(caller: Utilisateur?)
    ensures IsGranted(RoleUser, caller) <==> caller != null
  {
  }

  /** Delete and patch of a user reduce to "the caller is that user". */
  lemma UserAccessMeaning(op: UserOperation, caller: Utilisateur?, target: Utilisateur)
    ensures UserAccess(op, caller, target) <==>
      (op == DeleteUser || op == PatchUser ==> caller == target)
  {
  }

  /**
   * Deleting a publication is granted exactly to its author, creating one to
   * any authenticated caller, reading to everyone; nothing is an error.
   */
  lemma PublicationAccessMeaning(op: PublicationOperation, caller: Utilisateur?, target: Publication)
    requires op == DeletePublication ==> target.auteurSet
    ensures op == DeletePublication ==>
      (PublicationAccess(op, caller, target) == Granted <==>
        caller != null && caller == target.auteur)
    ensures op == PostPublication ==>
      (PublicationAccess(op, caller, target) == Granted <==> caller != null)
    ensures op.ListPublications? || op.GetPublication? || op.ListAuthorPublications? ==>
      PublicationAccess(op, caller, target) == Granted
    ensures PublicationAccess(op, caller, target) != ExpressionError
  {
  }

  /**
   * As written, no one, not even the author, may delete a publication; every
   * other operation is decided as intended.
   */
  lemma AsWrittenDeleteAlwaysFails(op: PublicationOperation, caller: Utilisateur?, target: Publication)
    requires op == DeletePublication ==> target.auteurSet
    ensures op == DeletePublication ==>
      PublicationAccessAsWritten(op, caller, target) == ExpressionError
      && (caller == target.auteur && caller != null ==>
            PublicationAccess(op, caller, target) == Granted)
    ensures op != DeletePublication ==>
      PublicationAccessAsWritten(op, caller, target) == PublicationAccess(op, caller, target)
  {
  }
}
