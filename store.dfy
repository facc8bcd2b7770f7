/** The `User` collection: documents by id, the lookups the handlers issue,
    `create`, `save` (with its pre-save hook), and the two document methods
    that write straight to the collection (`incLoginAttempts` through
    `updateOne`, and `updateLastActive`). */
module Store {
  import opened Common
  import opened UserModel

  type UserId = nat

  /** Email, nickname and phone number each belong to at most one document. */
  ghost predicate UniqueIdentities(users: map<UserId, Account>)
  {
    forall i, j :: i in users && j in users && i != j ==>
      users[i].email != users[j].email && users[i].nickname != users[j].nickname
      && users[i].phoneNumber != users[j].phoneNumber
  }

  /** Every single-use secret is stored together with its expiry. */
  ghost predicate SecretsPaired(a: Account)
  {
    && (a.verificationCode.Some? <==> a.verificationExpires.Some?)
    && (a.passwordResetToken.Some? <==> a.passwordResetExpires.Some?)
    && (a.emailVerificationToken.Some? <==> a.emailVerificationExpires.Some?)
    && (a.phoneVerificationToken.Some? <==> a.phoneVerificationExpires.Some?)
  }

  /** What holds of every stored document: the trust score is the one the
      pre-save hook computes, email and nickname are stored lower-cased, the
      gender is one the schema admits, and secrets come with their expiry. */
  ghost predicate WellFormed(a: Account)
  {
    && a.trustScore == TrustScore(a.verification)
    && IsLowerCase(a.email) && IsLowerCase(a.nickname)
    && (a.gender.None? || a.gender.value in GenderValues)
    && SecretsPaired(a)
  }

  /** An in-place edit a handler may save: it keeps the identifying fields,
      does not write the trust score or the gender, and keeps secrets paired. */
  ghost predicate SafeEdit(stored: Account, updated: Account)
  {
    && updated.email == stored.email && updated.nickname == stored.nickname
    && updated.phoneNumber == stored.phoneNumber && updated.gender == stored.gender
    && updated.trustScore == stored.trustScore
    && SecretsPaired(updated)
  }

  lemma SafeEditKeepsInvariant(users: map<UserId, Account>, id: UserId, saved: Account)
    requires UniqueIdentities(users) && id in users
    requires saved.email == users[id].email && saved.nickname == users[id].nickname
    requires saved.phoneNumber == users[id].phoneNumber
    ensures UniqueIdentities(users[id := saved])
  {
    var next := users[id := saved];
    forall i, j | i in next && j in next && i != j
      ensures next[i].email != next[j].email && next[i].nickname != next[j].nickname
      && next[i].phoneNumber != next[j].phoneNumber
    {
      assert next[i].email == users[i].email && next[j].email == users[j].email;
      assert next[i].nickname == users[i].nickname && next[j].nickname == users[j].nickname;
    }
  }

  class UserCollection {
    var users: map<UserId, Account>
    var nextId: UserId

    ghost predicate Valid()
      reads this
    {
      && UniqueIdentities(users)
      && (forall id :: id in users ==> id < nextId && WellFormed(users[id]))
    }

    constructor ()
      ensures Valid() && users == map[]
    {
      users := map[];
      nextId := 0;
    }

    /** `findOne(filter)`: a document satisfying the filter if there is one;
        which one, when several do, is the database's choice. */
    method FindOne(filter: Account -> bool) returns (found: Option<UserId>)
      ensures found.Some? ==> found.value in users && filter(users[found.value])
      ensures found.None? <==> forall id :: id in users ==> !filter(users[id])
    {
      if id :| id in users && filter(users[id]) {
        found := Some(id);
      } else {
        found := None;
      }
    }

    /** `User.create(doc)`: a fresh id for a document that collides with no
        stored one on email, nickname or phone number. */
    method Create(doc: Account) returns (id: UserId)
      requires Valid() && WellFormed(doc)
      requires forall j :: j in users ==>
                 users[j].email != doc.email && users[j].nickname != doc.nickname
                 && users[j].phoneNumber != doc.phoneNumber
      modifies this
      ensures Valid()
      ensures id !in old(users) && users == old(users)[id := doc]
    {
      id := nextId;
      users := users[id := doc];
      nextId := nextId + 1;
    }

    /** `doc.save()`: runs the pre-save hook and stores the result. */
    method Save(id: UserId, updated: Account)
      requires Valid() && id in users && SafeEdit(users[id], updated)
      modifies this
      ensures Valid() && nextId == old(nextId)
      ensures users == old(users)[id := PreSave(old(users)[id], updated)]
    {
      var saved := PreSave(users[id], updated);
      PreSaveKeepsScoreConsistent(users[id], updated);
      SafeEditKeepsInvariant(users, id, saved);
      users := users[id := saved];
    }

    /** `incLoginAttempts`: builds the update document from the record as
        read and applies it with `updateOne`, bypassing the pre-save hook. */
    method IncLoginAttempts(id: UserId, now: nat)
      requires Valid() && id in users
      modifies this
      ensures Valid() && nextId == old(nextId)
      ensures users == old(users)[id := UserModel.IncLoginAttempts(old(users)[id], now)]
    {
      var doc := users[id];
      var update := LoginAttemptsUpdate(doc, now);
      var written := ApplyAttemptsUpdate(doc, update);
      assert written == UserModel.IncLoginAttempts(doc, now);
      assert written == doc.(loginAttempts := written.loginAttempts, lockUntil := written.lockUntil);
      assert WellFormed(written);
      SafeEditKeepsInvariant(users, id, written);
      users := users[id := written];
    }

    /** `updateLastActive`: stamps `lastActive` and saves. */
    method UpdateLastActive(id: UserId, now: nat)
      requires Valid() && id in users
      modifies this
      ensures Valid() && nextId == old(nextId)
      ensures users == old(users)[id := old(users)[id].(lastActive := now)]
    {
      var doc := users[id];
      doc := doc.(lastActive := now);
      Save(id, doc);
    }
  }
}
