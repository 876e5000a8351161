# The feed: users, publications and the author binder

A model of the object core of a small social-posting backend written in PHP
on Symfony and API Platform. A user (`Utilisateur`) writes short text
publications (`Publication`). The two entities are linked both ways: the
user's `publications` collection and the publication's `Auteur`. The model
covers:

- the two classes with their fields, constructors and setters;
- the link operations `addPublication` and `removePublication`;
- the effective roles (`getRoles`) and credential clearing (`eraseCredentials`);
- the validation constraints on `login`, `mail`, `plainPassword` and
  `message`, as predicates;
- the access rules on the API operations, as predicates;
- the create-time author binder `PublicationUserSetter::process`. It makes
  the authenticated user the author of a new publication and then calls the
  wrapped persistence processor.

Files, one module each:

- `wrappers.dfy`: `Option`, for PHP's nullable values.
- `collections.dfy`: PHP's `array_unique` and Doctrine's
  `ArrayCollection::contains`, `add` and `removeElement`, as functions over
  sequences.
- `constraints.dfy`: the validation constraints. Includes the password regular
  expression, transcribed operator by operator.
- `entity.dfy`: the classes `Utilisateur` and `Publication`. They refer to each
  other, so they share one module.
- `security.dfy`: the per-operation access rules of both resources.
- `state.dfy`: `PublicationUserSetter`, with a token storage and a recording
  stand-in for the wrapped processor.
- `scenario.dfy`: a usage example. Alice signs up and publishes through the
  binder. Bob may not delete her publication and Alice may.

PHP `null` is `None` (or a `null` reference). Object identity (`===`) is
Dafny reference equality. The clock reading is an `Instant` argument. The
authenticated user comes from a `TokenStorage` object. The password hash is
an opaque string.

Points where the code does something other than what its declarations
suggest. The model follows the code:

- `getRoles` (src/Entity/Utilisateur.php:165-172) returns a list, not a set.
  `array_unique` keeps the first occurrence of each role, in order. The model
  proves both the set view and the exact list.
- `JoinColumn(nullable: false)` (src/Entity/Publication.php:60) declares a
  required author. Yet `setAuteur` accepts null, and `removePublication`
  clears the author. Also, `Auteur` is a typed property with no default
  (src/Entity/Publication.php:61), so it cannot be read before its first
  assignment. The model tracks this with the field `auteurSet`.
- A "not blank" message is only not null and not `""`. `NotBlank` has no
  normaliser here (src/Entity/Publication.php:47), so a message of four
  spaces is valid.
- The Delete rule of publications evidently means that only the author may
  delete. As written it cannot be evaluated at all (see Findings).

`scenario.dfy` is a usage example and models no function of the source. It
replays one fixed sign-up, publish and delete sequence against the
contracts. Hashing there is a given string.

## Model

| member | source | states |
|---|---|---|
| Collections.AddIfAbsent | src/Entity/Utilisateur.php:113-114 | the member is afterwards in the collection; adding a member already present leaves the collection as it was (idempotence); otherwise it is appended at the end; no other value appears; a collection without repeats keeps none |
| Collections.AddsNeverDuplicate | src/Entity/Utilisateur.php:111-119 | any number of adds, starting from a collection without repeats, gives a collection without repeats that holds exactly the old values and the added ones |
| Collections.AddAllIsUnique | src/Entity/Utilisateur.php:113-114 | adding values one by one (through `contains`/`add`) to an empty collection builds exactly what `array_unique` keeps of them, in the same order |
| Collections.FirstsFrom | src/Entity/Utilisateur.php:171 | keeping from position `i` on each value that does not occur earlier gives values that all lie from `i` on and none before `i`; every value from `i` on that is absent before `i` is kept; none twice |
| Collections.Unique | src/Entity/Utilisateur.php:171 | `array_unique` keeps exactly the values of its input, each once, and never grows the list |
| Collections.FirstsFromSnoc | src/Entity/Utilisateur.php:169-171 | appending a value to the input appends it to the kept values unless it already occurs in the input |
| Collections.UniqueSnoc | src/Entity/Utilisateur.php:169-171 | `array_unique` of a list with one value appended is the earlier result with that value added unless already present |
| Collections.FirstsFromOfDistinct | src/Entity/Utilisateur.php:171 | in a list without repeats every position from `i` on is kept |
| Collections.UniqueOfDistinct | src/Entity/Utilisateur.php:171 | a list without repeated values passes through `array_unique` unchanged, order included |
| Collections.IndexOf | src/Entity/Utilisateur.php:123 | the index found holds the value and no earlier index does (first occurrence) |
| Collections.RemoveElement | src/Entity/Utilisateur.php:123 | reports true exactly when the value was present; if absent the collection is unchanged; if present its first occurrence goes and the other values keep their order (also: length down by one, multiset minus that value) |
| Collections.RemoveFromDistinct | src/Entity/Utilisateur.php:121-131 | in a collection without repeats, the removed value is no longer present afterwards and no repeats appear |
| Constraints.PasswordPatternMeaning | src/Entity/Utilisateur.php:58 | with `$` matching only at the very end, the pattern matches exactly the strings of 8 to 30 ASCII letters and digits containing a lower-case letter, an upper-case letter and a digit |
| Constraints.LoginOnCreate | src/Entity/Utilisateur.php:38-43 | on creation a login is valid iff it is present and has 3 to 20 characters |
| Constraints.LoginOnUpdate | src/Entity/Utilisateur.php:39 | outside creation, a login is valid iff it is absent or has 3 to 20 characters |
| Constraints.MailOnCreate | src/Entity/Utilisateur.php:45-50 | on creation a mail is valid iff it is present, not empty and accepted by the e-mail syntax check |
| Constraints.PlainPasswordOnCreate | src/Entity/Utilisateur.php:56-61 | on creation the intended password rule accepts a password iff it is present, has 8 to 30 characters, all ASCII letters or digits, with a lower-case letter, an upper-case letter and a digit |
| Constraints.PlainPasswordOnUpdate | src/Entity/Utilisateur.php:57-58 | outside creation the password may be absent; a present one must meet the same rule |
| Constraints.PasswordFinalLineBreakAccepted | src/Entity/Utilisateur.php:57-58 | the rule as declared accepts "Passw0rd\n" on creation; the intended rule refuses it |
| Constraints.MessageMeaning | src/Entity/Publication.php:46-50 | a message is valid iff it is present and has 4 to 200 characters (not blank follows from the length) |
| Constraints.SpacesMessageAccepted | src/Entity/Publication.php:46-48 | a message of four spaces is valid, since `NotBlank` does not trim |
| Entity.EffectiveRoles | src/Entity/Utilisateur.php:165-172 | the effective roles always contain ROLE_USER, even for no stored role; they are computed from the stored roles, which `getRoles` only reads; as a set they are exactly the stored roles plus ROLE_USER; no role appears twice; at most one entry is added |
| Entity.EffectiveRolesShape | src/Entity/Utilisateur.php:167-171 | the effective roles are the distinct stored roles in first-occurrence order, then ROLE_USER when it is not stored |
| Entity.EffectiveRolesOfDistinct | src/Entity/Utilisateur.php:167-171 | for stored roles without repeats, getRoles is the stored list when it already holds ROLE_USER, and the stored list with ROLE_USER appended otherwise |
| Entity.Utilisateur.constructor | src/Entity/Utilisateur.php:69-72 | a new user has an empty publication collection, no stored role and all other fields null; its effective roles are exactly [ROLE_USER] |
| Entity.Utilisateur.SetLogin | src/Entity/Utilisateur.php:84-89 | changes only the login; `getLogin` and `getUserIdentifier` then return the new login; returns the user itself |
| Entity.Utilisateur.SetMail | src/Entity/Utilisateur.php:96-101 | changes only the mail; `getMail` then returns it; returns the user itself |
| Entity.Utilisateur.SetPassword | src/Entity/Utilisateur.php:144-147 | changes only the hash, which may be null |
| Entity.Utilisateur.SetPlainPassword | src/Entity/Utilisateur.php:160-163 | changes only the plaintext password, which may be null |
| Entity.Utilisateur.SetRoles | src/Entity/Utilisateur.php:177-180 | changes only the stored roles; the effective roles then follow from the new ones |
| Entity.Utilisateur.EraseCredentials | src/Entity/Utilisateur.php:182-185 | the plaintext password becomes null; the hash, login, mail, roles and publications are unchanged |
| Entity.Utilisateur.AddPublication | src/Entity/Utilisateur.php:111-119 | the collection becomes the old one with the publication added unless already a member; a newly added publication gets this user as author; a member already present keeps its author; no other object changes; no repeats appear; if every member pointed back at this user, every member still does |
| Entity.Utilisateur.RemovePublication | src/Entity/Utilisateur.php:121-131 | the collection loses the first occurrence of the publication; its author is cleared exactly when it was a member whose author was this user, and left as it was otherwise; in a collection without repeats it is no longer a member; the back-link invariant is kept |
| Entity.Publication.constructor | src/Entity/Publication.php:63-66 | a new publication carries the current time as its date and has no message; its author is not yet assigned |
| Entity.Publication.SetMessage | src/Entity/Publication.php:79-84 | changes only the message; `getMessage` then returns it; returns the publication itself |
| Entity.Publication.SetDatePublication | src/Entity/Publication.php:91-96 | changes only the date; `getDatePublication` then returns it; returns the publication itself |
| Entity.Publication.SetAuteur | src/Entity/Publication.php:103-108 | changes only the author, which may be null; `getAuteur` is then defined and returns it; returns the publication itself |
| Security.AuthenticatedHoldsRoleUser | src/Entity/Utilisateur.php:25 | the `is_granted('ROLE_USER')` half of a rule holds exactly for an authenticated caller, by the effective-roles property |
| Security.UserAccessMeaning | src/Entity/Utilisateur.php:24-27 | listing, reading and signing up are open; deleting or patching a user is allowed iff the caller is that user |
| Security.PublicationAccessMeaning | src/Entity/Publication.php:32-34 | with the delete rule as intended, deleting is granted iff the caller is authenticated and is the author; creating iff the caller is authenticated; reading always; no decision is an error |
| Security.AsWrittenDeleteAlwaysFails | src/Entity/Publication.php:33 | the delete rule as written is an expression error for every caller, the author included, who would be granted under the intended rule; every other operation is decided as intended |
| State.PublicationUserSetter.constructor | src/State/PublicationUserSetter.php:11-14 | keeps the wrapped processor and the token storage it is given |
| State.PublicationUserSetter.Process | src/State/PublicationUserSetter.php:16-22 | the data's author becomes the token's user, whatever it was before; the wrapped processor is called exactly once, with the same data, operation, URI variables and context; at that call the data already carries the new author (so the author is set first) and still has the message, date and id it came with; nothing is returned; a token must be present |

## Findings

| source | as written | input that shows it | evidently intended | confidence | as-written member | corrected member |
|---|---|---|---|---|---|---|
| src/Entity/Publication.php:33 | the delete rule `is_granted('ROLE_USER') ans object.Auteur == user` joins its halves with `ans`, which Symfony's expression language does not know as an operator, so parsing the rule fails | any `DELETE /publications/{id}`, including one by the publication's author | `is_granted('ROLE_USER') and object.Auteur == user` | high, not executed | Security.PublicationAccessAsWritten, with Security.AsWrittenDeleteAlwaysFails | Security.PublicationAccess, with Security.PublicationAccessMeaning |
| src/Entity/Utilisateur.php:58 | the pattern ends in `$` without the `D` modifier, and in PCRE such a `$` also matches just before a final line break | "Passw0rd\n" has 9 characters, so it passes `Length(8, 30)`, and it matches the pattern | accept only 8 to 30 letters and digits: `$` matching at the very end (`\z`, or the `D` modifier) | medium, not executed | Constraints.PlainPasswordValidAsWritten, with Constraints.PasswordFinalLineBreakAccepted | Constraints.PlainPasswordValid, with Constraints.PlainPasswordOnCreate |

On the first row: the rule also reads `Auteur`, which is a private property.
The expression language reads `object.Auteur` as a direct property access, so
even with `and` the rule may need `object.getAuteur()` to evaluate. The
model's intended rule compares the author as `getAuteur()` returns it.

## Left out

- ORM mapping and persistence are not modelled. This covers generated ids,
  the `unique` columns, `UniqueEntity`, `JoinColumn(nullable: false)` and the
  cascade of `orphanRemoval`. The database and the ORM enforce these, not the
  code shown.
- Routing, serialization groups, `ApiProperty` readability and writability,
  the `order` clauses and the nested `/utilisateur/{idUtilisateur}/publications`
  listing are framework metadata. The nested listing appears only as an
  operation that anyone may read.
- Security expressions are not evaluated. The rules are predicates. They
  compare objects by identity, but the `==` in the expressions is PHP's loose
  comparison, which compares class and property values. The two agree when
  the ORM hands out one instance per record. `is_granted` is taken over the
  caller's current effective roles, not over the roles copied into the token
  at login.
- The Post and Patch operations of the user resource give `validationContext`
  without a `groups` key. The model takes the groups the metadata evidently
  intends: creation plus Default for Post, update plus Default for Patch. It
  does not model what the framework makes of the missing key.
- Password hashing is not modelled: `UserPasswordHasher` is not part of this
  model. The hash is an opaque string, and the scenario gets it as a
  parameter.
- E-mail syntax (`Assert\Email`) is the `isEmail` parameter of
  `MailValid`, since it is a library rule.
- The clock (`new \DateTime()`) is the `now` argument of the `Publication`
  constructor. The date is a value, so aliasing of a mutable `DateTime` is not
  modelled.
- Token storage: a token's user is a `Utilisateur` or null. A user of another
  class, which would make `setAuteur` fail its type check, is not modelled.
- The wrapped processor's own work (persisting, flushing, assigning the id) is
  not modelled. `RecordingProcessor` only records each call, with the data's
  fields at that moment. So `PublicationUserSetter.Process` states the data's
  message, date and id only as the wrapped call receives them. What the data
  holds after that call returns is the stand-in's behaviour, not the real
  processor's. `uriVariables`
  and `context` are maps of strings, and their PHP default values (`[]`) are
  passed explicitly.
- The getters (`getId`, `getLogin`, `getMail`, `getPublications`,
  `getPassword`, `getPlainPassword`, `getRoles`, `getUserIdentifier`,
  `getMessage`, `getDatePublication`, `getAuteur`) are plain reads. Their
  properties appear in the setters' and constructors' contracts.
  `getUserIdentifier` and `getAuteur` require a non-null login and an
  assigned author, because PHP faults otherwise.
- `array_unique` preserves keys, so its result may have gaps in its keys. The
  model keeps only the order of values. Roles are compared as strings, which
  is how `array_unique` compares them.
- `Length` counts characters, as `mb_strlen` does. The pattern, which has no
  `u` modifier, works on bytes. A non-ASCII character is refused in both
  readings, so the model works on characters.
