/** web/backend/src/utils/profileFilter.js: what a viewer sees of a user
    document. The document is a plain object (the result of `toObject`),
    modelled as a map from keys to JSON-like values. */
module ProfileFilter {
  import opened Common

  /** A JavaScript value as it appears in a plain document; `VUndefined`
      is the value of a missing key. */
  datatype Value =
    | VUndefined
    | VNull
    | VBool(b: bool)
    | VNum(n: int)
    | VStr(s: string)
    | VList(items: seq<Value>)
    | VObj(fields: map<string, Value>)

  type Doc = map<string, Value>

  /** JavaScript truthiness (numbers are modelled as integers, so NaN does
      not arise). */
  predicate Truthy(v: Value)
  {
    match v
    case VUndefined => false
    case VNull => false
    case VBool(b) => b
    case VNum(n) => n != 0
    case VStr(s) => s != ""
    case VList(_) => true
    case VObj(_) => true
  }

  /** `doc[key]`. */
  function Lookup(doc: Doc, key: string): Value
  {
    if key in doc then doc[key] else VUndefined
  }

  /** `v.key` for a value that is not null or undefined: only objects have
      own fields here. */
  function Field(v: Value, key: string): Value
  {
    if v.VObj? then Lookup(v.fields, key) else VUndefined
  }

  /** `delete v.key`: removes the field of an object; a no-op on any
      other value it does not throw on. */
  function DeleteField(v: Value, key: string): (r: Value)
    ensures v.VObj? <==> r.VObj?
    ensures r.VObj? ==> r.fields.Keys == v.fields.Keys - {key}
                        && forall k :: k in r.fields ==> r.fields[k] == v.fields[k]
    ensures !v.VObj? ==> r == v
  {
    if v.VObj? then VObj(v.fields - {key}) else v
  }

  /** `user.privacy || {}`. */
  function PrivacyOf(doc: Doc): (p: Value)
    ensures !Truthy(Lookup(doc, "privacy")) ==> p == VObj(map[])
  {
    var p := Lookup(doc, "privacy");
    if Truthy(p) then p else VObj(map[])
  }

  /** The viewer is the owner only when there is a viewer and its id is the
      subject's. */
  predicate IsOwnProfile(subjectId: string, viewerId: Option<string>)
  {
    viewerId.Some? && viewerId.value == subjectId
  }

  predicate IsPrivate(privacy: Value)
  {
    Field(privacy, "profileVisibility") == VStr("private")
  }

  const PrivateMessage: string := "This profile is private"

  /** The stub a private profile shows to anyone but its owner. */
  function PrivateStub(doc: Doc): (r: Doc)
    ensures r.Keys == {"_id", "fullname", "nickname", "profilePic", "message"}
    ensures r["message"] == VStr(PrivateMessage)
    ensures forall k :: k in r && k != "message" ==> r[k] == Lookup(doc, k)
  {
    map["_id" := Lookup(doc, "_id"), "fullname" := Lookup(doc, "fullname"), "nickname" := Lookup(doc, "nickname"),
        "profilePic" := Lookup(doc, "profilePic"), "message" := VStr(PrivateMessage)]
  }

  /** The keys always removed for a viewer other than the owner. The
      nested `verification.identityDocument` and `driverProfile.licenseNumber`
      are removed inside their objects. */
  const SensitiveKeys: set<string> := {
    "password", "stripeCustomerId", "stripeAccountId", "passwordResetToken", "passwordResetExpires",
    "verificationCode", "verificationExpires", "loginAttempts", "lockUntil", "paymentMethods",
    "wallet", "blockedUsers", "reports", "pushTokens"}

  /** The keys `showTrips` hides, as written (`saveTrips` is not a field of
      the schema, which names the list `savedTrips`). */
  const TripKeysAsWritten: set<string> := {"trips", "saveTrips"}

  /** The keys `showTrips` evidently hides. */
  const TripKeys: set<string> := {"trips", "savedTrips"}

  /** The keys one toggle hides when it is falsy. */
  function HiddenBy(privacy: Value, toggle: string, keys: set<string>): set<string>
  {
    if Truthy(Field(privacy, toggle)) then {} else keys
  }

  /** The keys the four toggles hide. */
  function ToggleHidden(privacy: Value, tripKeys: set<string>): set<string>
  {
    HiddenBy(privacy, "showEmail", {"email"}) + HiddenBy(privacy, "showPhone", {"phoneNumber"})
    + HiddenBy(privacy, "showLocation", {"currentLocation", "address"}) + HiddenBy(privacy, "showTrips", tripKeys)
  }

  /** The keys a non-owner does not see on a profile that is not private. */
  function HiddenKeys(privacy: Value, tripKeys: set<string>): set<string>
  {
    ToggleHidden(privacy, tripKeys) + SensitiveKeys
  }

  /** A kept field, with the nested sensitive field removed from the two
      objects that carry one. */
  function Scrub(key: string, v: Value): Value
  {
    if key == "verification" then DeleteField(v, "identityDocument")
    else if key == "driverProfile" then DeleteField(v, "licenseNumber")
    else v
  }

  /** `m` with the nested sensitive fields removed. */
  function Scrubbed(m: Doc): (r: Doc)
    ensures r.Keys == m.Keys
  {
    map k | k in m :: Scrub(k, m[k])
  }

  /** What `filterProfileByPrivacy` returns, with the keys `showTrips`
      hides as a parameter; `None` is the TypeError thrown when the
      document has no `verification` object to delete from. */
  function ProjectWith(doc: Doc, subjectId: string, viewerId: Option<string>, tripKeys: set<string>): Option<Doc>
  {
    if IsOwnProfile(subjectId, viewerId) then Some(doc)
    else
      var privacy := PrivacyOf(doc);
      if IsPrivate(privacy) then Some(PrivateStub(doc))
      else
        var verification := Lookup(doc, "verification");
        if verification.VNull? || verification.VUndefined? then None
        else Some(Scrubbed(doc - HiddenKeys(privacy, tripKeys)))
  }

  /** The filter as intended: `showTrips` hides `trips` and `savedTrips`. */
  function Project(doc: Doc, subjectId: string, viewerId: Option<string>): Option<Doc>
  {
    ProjectWith(doc, subjectId, viewerId, TripKeys)
  }

  /** The filter as written: `showTrips` hides `trips` and `saveTrips`. */
  function ProjectAsWritten(doc: Doc, subjectId: string, viewerId: Option<string>): Option<Doc>
  {
    ProjectWith(doc, subjectId, viewerId, TripKeysAsWritten)
  }

  /** `m` with the nested sensitive field removed under the keys in `scrubbed`. */
  function Partial(m: Doc, scrubbed: set<string>): Doc
  {
    map k | k in m :: if k in scrubbed then Scrub(k, m[k]) else m[k]
  }

  /** `delete filtered[key]` for each of `keys` in turn, keeping the record
      of the keys removed so far. */
  method Delete(filtered: Doc, ghost doc: Doc, ghost hidden: set<string>, ghost scrubbed: set<string>, keys: set<string>)
    returns (next: Doc, ghost hidden': set<string>)
    requires filtered == Partial(doc - hidden, scrubbed)
    ensures next == filtered - keys && hidden' == hidden + keys
    ensures next == Partial(doc - hidden', scrubbed)
  {
    next := filtered - keys;
    hidden' := hidden + keys;
    assert next == Partial(doc - hidden', scrubbed);
  }

  /** Removes the nested sensitive field of the object under `key`. */
  method ScrubIn(filtered: Doc, ghost doc: Doc, ghost hidden: set<string>, ghost scrubbed: set<string>, key: string)
    returns (next: Doc)
    requires filtered == Partial(doc - hidden, scrubbed) && key in filtered && key !in scrubbed
    ensures next == filtered[key := Scrub(key, filtered[key])]
    ensures next == Partial(doc - hidden, scrubbed + {key})
  {
    next := filtered[key := Scrub(key, filtered[key])];
    assert next == Partial(doc - hidden, scrubbed + {key});
  }

  lemma PartialOfAbsentKey(m: Doc, scrubbed: set<string>, key: string)
    requires key !in m
    ensures Partial(m, scrubbed) == Partial(m, scrubbed + {key})
  {
  }

  lemma PartialIsScrubbed(m: Doc)
    ensures Partial(m, {"verification", "driverProfile"}) == Scrubbed(m)
  {
  }

  /** The deletions made for every viewer other than the owner; `None`
      when there is no `verification` object to delete from. */
  method RemoveSensitive(doc: Doc) returns (r: Option<Doc>)
    ensures Lookup(doc, "verification").VNull? || Lookup(doc, "verification").VUndefined? ==> r.None?
    ensures !(Lookup(doc, "verification").VNull? || Lookup(doc, "verification").VUndefined?) ==>
              r == Some(Scrubbed(doc - SensitiveKeys))
  {
    var filtered := doc;
    assert filtered == Partial(doc - {}, {});
    ghost var hidden: set<string> := {};
    ghost var scrubbed: set<string> := {};
    filtered, hidden := Delete(filtered, doc, hidden, scrubbed, {"password"});
    var verification := Lookup(filtered, "verification");
    assert verification == Lookup(doc, "verification");
    if verification.VNull? || verification.VUndefined? {
      return None;
    }
    filtered := ScrubIn(filtered, doc, hidden, scrubbed, "verification");
    scrubbed := scrubbed + {"verification"};
    filtered, hidden := Delete(filtered, doc, hidden, scrubbed, {"stripeCustomerId", "stripeAccountId"});
    if "driverProfile" in filtered {
      filtered := ScrubIn(filtered, doc, hidden, scrubbed, "driverProfile");
    } else {
      PartialOfAbsentKey(doc - hidden, scrubbed, "driverProfile");
    }
    scrubbed := scrubbed + {"driverProfile"};
    filtered, hidden := Delete(filtered, doc, hidden, scrubbed,
      {"passwordResetToken", "passwordResetExpires", "verificationCode", "verificationExpires", "loginAttempts",
       "lockUntil", "paymentMethods", "wallet", "blockedUsers", "reports", "pushTokens"});
    assert hidden == SensitiveKeys;
    assert scrubbed == {"verification", "driverProfile"};
    PartialIsScrubbed(doc - hidden);
    r := Some(filtered);
  }

  /** Removing the toggled keys and then the sensitive ones removes the
      hidden keys, and leaves `verification` alone. */
  lemma TogglesThenSensitive(doc: Doc, privacy: Value, tripKeys: set<string>)
    requires "verification" !in tripKeys
    ensures Partial(doc - ToggleHidden(privacy, tripKeys), {}) == doc - ToggleHidden(privacy, tripKeys)
    ensures (doc - ToggleHidden(privacy, tripKeys)) - SensitiveKeys == doc - HiddenKeys(privacy, tripKeys)
    ensures Lookup(doc - ToggleHidden(privacy, tripKeys), "verification") == Lookup(doc, "verification")
  {
  }

  /** `filterProfileByPrivacy`: copies the document and deletes keys from
      the copy one after another. */
  method FilterProfileByPrivacy(doc: Doc, subjectId: string, viewerId: Option<string>) returns (r: Option<Doc>)
    ensures r == Project(doc, subjectId, viewerId)
  {
    if IsOwnProfile(subjectId, viewerId) {
      return Some(doc);
    }
    var privacy := PrivacyOf(doc);
    var filtered := doc;
    if IsPrivate(privacy) {
      return Some(PrivateStub(filtered));
    }
    assert filtered == Partial(doc - {}, {});
    ghost var hidden: set<string> := {};
    ghost var scrubbed: set<string> := {};
    if !Truthy(Field(privacy, "showEmail")) {
      filtered, hidden := Delete(filtered, doc, hidden, scrubbed, {"email"});
    }
    assert hidden == HiddenBy(privacy, "showEmail", {"email"});
    if !Truthy(Field(privacy, "showPhone")) {
      filtered, hidden := Delete(filtered, doc, hidden, scrubbed, {"phoneNumber"});
    }
    assert hidden == HiddenBy(privacy, "showEmail", {"email"}) + HiddenBy(privacy, "showPhone", {"phoneNumber"});
    if !Truthy(Field(privacy, "showLocation")) {
      filtered, hidden := Delete(filtered, doc, hidden, scrubbed, {"currentLocation", "address"});
    }
    assert hidden == HiddenBy(privacy, "showEmail", {"email"}) + HiddenBy(privacy, "showPhone", {"phoneNumber"})
                     + HiddenBy(privacy, "showLocation", {"currentLocation", "address"});
    if !Truthy(Field(privacy, "showTrips")) {
      filtered, hidden := Delete(filtered, doc, hidden, scrubbed, TripKeys);
    }
    assert hidden == ToggleHidden(privacy, TripKeys);
    TogglesThenSensitive(doc, privacy, TripKeys);
    r := RemoveSensitive(filtered);
  }

  // ---------------------------------------------------------------- properties

  /** The owner gets the document unchanged; no viewer is never the owner. */
  lemma OwnerSeesEverything(doc: Doc, subjectId: string, viewerId: Option<string>)
    ensures viewerId == Some(subjectId) ==> Project(doc, subjectId, viewerId) == Some(doc)
    ensures viewerId.None? ==> Project(doc, subjectId, viewerId) == Project(doc, subjectId, Some(subjectId + "!"))
  {
  }

  /** A private profile shows a non-owner exactly five keys. */
  lemma PrivateProfileIsStub(doc: Doc, subjectId: string, viewerId: Option<string>)
    requires !IsOwnProfile(subjectId, viewerId) && IsPrivate(PrivacyOf(doc))
    ensures Project(doc, subjectId, viewerId).Some?
    ensures var r := Project(doc, subjectId, viewerId).value;
            r.Keys == {"_id", "fullname", "nickname", "profilePic", "message"}
            && r["message"] == VStr(PrivateMessage)
            && r["_id"] == Lookup(doc, "_id") && r["fullname"] == Lookup(doc, "fullname")
            && r["nickname"] == Lookup(doc, "nickname") && r["profilePic"] == Lookup(doc, "profilePic")
  {
  }

  /** On a profile that is not private, a non-owner sees exactly the keys
      of the document that are not hidden, each with its value except for
      the two scrubbed objects. */
  lemma ShownKeys(doc: Doc, subjectId: string, viewerId: Option<string>, k: string)
    requires !IsOwnProfile(subjectId, viewerId)
    requires Project(doc, subjectId, viewerId).Some? && !IsPrivate(PrivacyOf(doc))
    ensures var r := Project(doc, subjectId, viewerId).value;
            (k in r <==> k in doc && k !in HiddenKeys(PrivacyOf(doc), TripKeys))
            && (k in r && k != "verification" && k != "driverProfile" ==> r[k] == doc[k])
  {
  }

  /** `showEmail` decides whether the email is shown, unchanged. */
  lemma EmailToggle(doc: Doc, subjectId: string, viewerId: Option<string>)
    requires !IsOwnProfile(subjectId, viewerId)
    requires Project(doc, subjectId, viewerId).Some? && !IsPrivate(PrivacyOf(doc))
    ensures var r := Project(doc, subjectId, viewerId).value;
            ("email" in r <==> "email" in doc && Truthy(Field(PrivacyOf(doc), "showEmail")))
            && ("email" in r ==> r["email"] == doc["email"])
  {
    ShownKeys(doc, subjectId, viewerId, "email");
  }

  /** `showPhone` decides whether the phone number is shown, unchanged. */
  lemma PhoneToggle(doc: Doc, subjectId: string, viewerId: Option<string>)
    requires !IsOwnProfile(subjectId, viewerId)
    requires Project(doc, subjectId, viewerId).Some? && !IsPrivate(PrivacyOf(doc))
    ensures var r := Project(doc, subjectId, viewerId).value;
            ("phoneNumber" in r <==> "phoneNumber" in doc && Truthy(Field(PrivacyOf(doc), "showPhone")))
            && ("phoneNumber" in r ==> r["phoneNumber"] == doc["phoneNumber"])
  {
    ShownKeys(doc, subjectId, viewerId, "phoneNumber");
  }

  /** `showLocation` decides whether the address and current location are shown. */
  lemma LocationToggle(doc: Doc, subjectId: string, viewerId: Option<string>)
    requires !IsOwnProfile(subjectId, viewerId)
    requires Project(doc, subjectId, viewerId).Some? && !IsPrivate(PrivacyOf(doc))
    ensures var r := Project(doc, subjectId, viewerId).value;
            ("address" in r <==> "address" in doc && Truthy(Field(PrivacyOf(doc), "showLocation")))
            && ("currentLocation" in r <==> "currentLocation" in doc && Truthy(Field(PrivacyOf(doc), "showLocation")))
  {
    var p := PrivacyOf(doc);
    assert "address" !in SensitiveKeys && "currentLocation" !in SensitiveKeys;
    assert "address" in HiddenKeys(p, TripKeys) <==> !Truthy(Field(p, "showLocation"));
    assert "currentLocation" in HiddenKeys(p, TripKeys) <==> !Truthy(Field(p, "showLocation"));
    ShownKeys(doc, subjectId, viewerId, "address");
    ShownKeys(doc, subjectId, viewerId, "currentLocation");
  }

  /** `showTrips` decides whether the trips and saved trips are shown. */
  lemma TripsToggle(doc: Doc, subjectId: string, viewerId: Option<string>)
    requires !IsOwnProfile(subjectId, viewerId)
    requires Project(doc, subjectId, viewerId).Some? && !IsPrivate(PrivacyOf(doc))
    ensures var r := Project(doc, subjectId, viewerId).value;
            ("trips" in r <==> "trips" in doc && Truthy(Field(PrivacyOf(doc), "showTrips")))
            && ("savedTrips" in r <==> "savedTrips" in doc && Truthy(Field(PrivacyOf(doc), "showTrips")))
  {
    ShownKeys(doc, subjectId, viewerId, "trips");
    ShownKeys(doc, subjectId, viewerId, "savedTrips");
  }

  /** A document without a `privacy` object is filtered as if every toggle
      were off. */
  lemma MissingPrivacyHidesAll(doc: Doc, subjectId: string, viewerId: Option<string>)
    requires !IsOwnProfile(subjectId, viewerId) && "privacy" !in doc
    requires Project(doc, subjectId, viewerId).Some?
    ensures var r := Project(doc, subjectId, viewerId).value;
            "email" !in r && "phoneNumber" !in r && "address" !in r && "currentLocation" !in r
            && "trips" !in r && "savedTrips" !in r
  {
  }

  /** Whatever the toggles, a non-owner never sees a sensitive key, the
      identity document or the licence number. */
  lemma SensitiveFieldsNeverShown(doc: Doc, subjectId: string, viewerId: Option<string>)
    requires !IsOwnProfile(subjectId, viewerId) && !IsPrivate(PrivacyOf(doc))
    requires Project(doc, subjectId, viewerId).Some?
    ensures var r := Project(doc, subjectId, viewerId).value;
            (forall k :: k in SensitiveKeys ==> k !in r)
            && "verification" in r
            && (r["verification"].VObj? ==> "identityDocument" !in r["verification"].fields)
            && ("driverProfile" in r && r["driverProfile"].VObj? ==> "licenseNumber" !in r["driverProfile"].fields)
  {
  }

  /** The filter only removes: its keys are among the document's, and every
      kept key other than the two scrubbed objects keeps its value. */
  lemma FilterOnlyRemoves(doc: Doc, subjectId: string, viewerId: Option<string>)
    requires !IsPrivate(PrivacyOf(doc)) && Project(doc, subjectId, viewerId).Some?
    ensures var r := Project(doc, subjectId, viewerId).value;
            r.Keys <= doc.Keys
            && forall k :: k in r && k != "verification" && k != "driverProfile" ==> r[k] == doc[k]
  {
  }

  /** The document with its visibility replaced. */
  function WithVisibility(doc: Doc, visibility: string): Doc
  {
    var privacy := Lookup(doc, "privacy");
    if privacy.VObj? then doc["privacy" := VObj(privacy.fields["profileVisibility" := VStr(visibility)])] else doc
  }

  /** Changing "friends" into "public" changes no toggle, so the same keys
      are hidden, and neither visibility is private. */
  lemma PublicHidesTheSame(doc: Doc)
    requires Lookup(doc, "privacy").VObj?
    requires Field(Lookup(doc, "privacy"), "profileVisibility") == VStr("friends")
    ensures var pub := WithVisibility(doc, "public");
            && !IsPrivate(PrivacyOf(doc)) && !IsPrivate(PrivacyOf(pub))
            && HiddenKeys(PrivacyOf(pub), TripKeys) == HiddenKeys(PrivacyOf(doc), TripKeys)
            && "privacy" !in HiddenKeys(PrivacyOf(doc), TripKeys)
            && Lookup(pub, "verification") == Lookup(doc, "verification")
  {
    var pub := WithVisibility(doc, "public");
    var pd := PrivacyOf(doc);
    var pp := PrivacyOf(pub);
    assert pp == VObj(pd.fields["profileVisibility" := VStr("public")]);
    assert Field(pp, "showEmail") == Field(pd, "showEmail");
    assert Field(pp, "showPhone") == Field(pd, "showPhone");
    assert Field(pp, "showLocation") == Field(pd, "showLocation");
    assert Field(pp, "showTrips") == Field(pd, "showTrips");
    assert "privacy" !in SensitiveKeys;
  }

  /** "friends" is filtered exactly like "public": the two results differ
      at most in the `privacy` value they carry. */
  lemma FriendsLikePublic(doc: Doc, subjectId: string, viewerId: Option<string>)
    requires Lookup(doc, "privacy").VObj?
    requires Field(Lookup(doc, "privacy"), "profileVisibility") == VStr("friends")
    requires !IsOwnProfile(subjectId, viewerId)
    ensures var f := Project(doc, subjectId, viewerId);
            var p := Project(WithVisibility(doc, "public"), subjectId, viewerId);
            f.Some? == p.Some?
            && (f.Some? ==> f.value.Keys == p.value.Keys
                            && forall k :: k in f.value && k != "privacy" ==> f.value[k] == p.value[k])
  {
    var pub := WithVisibility(doc, "public");
    var hidden := HiddenKeys(PrivacyOf(doc), TripKeys);
    PublicHidesTheSame(doc);
    assert (pub - hidden).Keys == (doc - hidden).Keys;
  }

  /** As written, hiding trips leaves the saved-trips list visible. */
  lemma SavedTripsShownAsWritten(doc: Doc, subjectId: string, viewerId: Option<string>)
    requires !IsOwnProfile(subjectId, viewerId) && !IsPrivate(PrivacyOf(doc))
    requires !Truthy(Field(PrivacyOf(doc), "showTrips")) && "savedTrips" in doc
    requires Lookup(doc, "verification").VObj?
    ensures ProjectAsWritten(doc, subjectId, viewerId).Some?
    ensures "savedTrips" in ProjectAsWritten(doc, subjectId, viewerId).value
    ensures "savedTrips" !in Project(doc, subjectId, viewerId).value
  {
  }
}
