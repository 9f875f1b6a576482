/**
  Request and response shapes of the server-inventory API, and how a JSON
  request body becomes one of them. Field names are the JSON keys; a body is a
  JSON object whose values are null, strings or integers.
 */
module Schemas {
  import opened Wrappers

  type Email = string

  datatype Json = JNull | JString(str: string) | JInt(num: int)

  /** A JSON object as received in a request body. */
  type Body = map<string, Json>

  /** Why a body was rejected (answered with 422 by the framework). */
  datatype ValidationError = Missing(field: string) | WrongType(field: string)

  const NameKey := "name"
  const IpAddressKey := "ip_address"
  const StatusKey := "status"
  const OwnerEmailKey := "owner_email"

  /** The fields every server record carries apart from its id and owner. */
  const ServerFieldKeys: set<string> := {NameKey, IpAddressKey, StatusKey}

  /** The status a server gets when the request leaves it out. */
  const DefaultStatus := "active"

  const FirstNameKey := "first_name"
  const LastNameKey := "last_name"
  const AgeKey := "age"
  const PhoneKey := "phone"
  const ProfilePhotoKey := "profile_photo"

  const EmailKey := "email"
  const HashedPasswordKey := "hashed_password"

  // ---------------------------------------------------------------------------
  // Reading one field of a body

  /** A `str` field without a default: it must be present and a string. */
  function RequiredStr(body: Body, key: string): Result<string, ValidationError> {
    if key !in body then Failure(Missing(key))
    else if body[key].JString? then Success(body[key].str)
    else Failure(WrongType(key))
  }

  /** A `str` field with a default: absent means the default, null is rejected. */
  function DefaultedStr(body: Body, key: string, default: string): Result<string, ValidationError> {
    if key !in body then Success(default)
    else if body[key].JString? then Success(body[key].str)
    else Failure(WrongType(key))
  }

  /** An `Optional[str] = None` field: absent or null both mean `None`. */
  function OptionalStr(body: Body, key: string): Result<Option<string>, ValidationError> {
    if key !in body || body[key].JNull? then Success(None)
    else if body[key].JString? then Success(Some(body[key].str))
    else Failure(WrongType(key))
  }

  /** An `Optional[int] = None` field: absent or null both mean `None`. */
  function OptionalInt(body: Body, key: string): Result<Option<int>, ValidationError> {
    if key !in body || body[key].JNull? then Success(None)
    else if body[key].JInt? then Success(Some(body[key].num))
    else Failure(WrongType(key))
  }

  // ---------------------------------------------------------------------------
  // Server schemas

  /** `ServerBase`; `ServerCreate` adds nothing to it. */
  datatype ServerBase = ServerBase(name: string, ipAddress: string, status: string) {

    /** `server.dict()`: exactly the three base fields, never an owner. */
    function Dict(): (d: map<string, string>)
      ensures d.Keys == ServerFieldKeys
      ensures OwnerEmailKey !in d
      ensures d[NameKey] == name && d[IpAddressKey] == ipAddress && d[StatusKey] == status
    {
      map[NameKey := name, IpAddressKey := ipAddress, StatusKey := status]
    }
  }

  type ServerCreate = ServerBase

  /** Validation of a create body: name and ip_address required, status defaults to "active". */
  function ParseServerCreate(body: Body): (r: Result<ServerCreate, ValidationError>)
    ensures r.Success? <==>
      && NameKey in body && body[NameKey].JString?
      && IpAddressKey in body && body[IpAddressKey].JString?
      && (StatusKey !in body || body[StatusKey].JString?)
    ensures r.Success? ==> r.value.name == body[NameKey].str
    ensures r.Success? ==> r.value.ipAddress == body[IpAddressKey].str
    ensures r.Success? && StatusKey !in body ==> r.value.status == DefaultStatus
    ensures r.Success? && StatusKey in body ==> r.value.status == body[StatusKey].str
  {
    var name :- RequiredStr(body, NameKey);
    var ipAddress :- RequiredStr(body, IpAddressKey);
    var status :- DefaultedStr(body, StatusKey, DefaultStatus);
    Success(ServerBase(name, ipAddress, status))
  }

  /** A create body holding exactly the fields of `c`, as JSON strings. */
  function CreateBody(c: ServerCreate): Body {
    var d := c.Dict();
    map k | k in d :: JString(d[k])
  }

  /** A created server's own fields, sent back as a body, validate to the same server. */
  lemma CreateBodyRoundTrip(c: ServerCreate)
    ensures ParseServerCreate(CreateBody(c)) == Success(c)
  {
  }

  /** Keys outside the schema, `owner_email` among them, have no effect on a create body. */
  lemma CreateIgnoresForeignKeys(body: Body)
    ensures ParseServerCreate(body) == ParseServerCreate(map k | k in body && k in ServerFieldKeys :: body[k])
  {
  }

  /** `ServerUpdate`: every field optional, `None` meaning "leave as is". */
  datatype ServerUpdate = ServerUpdate(name: Option<string>, ipAddress: Option<string>, status: Option<string>) {

    /** `server_update.dict()`: all three keys, `None` values included. */
    function Dict(): (d: map<string, Option<string>>)
      ensures d.Keys == ServerFieldKeys
      ensures d[NameKey] == name && d[IpAddressKey] == ipAddress && d[StatusKey] == status
    {
      map[NameKey := name, IpAddressKey := ipAddress, StatusKey := status]
    }
  }

  const EmptyUpdate := ServerUpdate(None, None, None)

  /** Validation of an update body: absent and null fields both become `None`. */
  function ParseServerUpdate(body: Body): (r: Result<ServerUpdate, ValidationError>)
    ensures r.Success? <==> forall k :: k in ServerFieldKeys && k in body ==> !body[k].JInt?
    ensures r.Success? ==>
      r.value.name == (if NameKey in body && body[NameKey].JString? then Some(body[NameKey].str) else None)
    ensures r.Success? ==>
      r.value.ipAddress == (if IpAddressKey in body && body[IpAddressKey].JString? then Some(body[IpAddressKey].str) else None)
    ensures r.Success? ==>
      r.value.status == (if StatusKey in body && body[StatusKey].JString? then Some(body[StatusKey].str) else None)
    ensures body.Keys !! ServerFieldKeys ==> r == Success(EmptyUpdate)
  {
    var name :- OptionalStr(body, NameKey);
    var ipAddress :- OptionalStr(body, IpAddressKey);
    var status :- OptionalStr(body, StatusKey);
    Success(ServerUpdate(name, ipAddress, status))
  }

  /** Keys outside the schema, `owner_email` among them, have no effect on an update body. */
  lemma UpdateIgnoresForeignKeys(body: Body)
    ensures ParseServerUpdate(body) == ParseServerUpdate(map k | k in body && k in ServerFieldKeys :: body[k])
  {
  }

  /**
    `update_data`: the fields of an update that are not `None`, which is what
    gets `$set`. Its keys are base fields only, so an update can never name
    the owner or the id.
   */
  function UpdateData(u: ServerUpdate): (d: map<string, string>)
    ensures d.Keys <= ServerFieldKeys
    ensures OwnerEmailKey !in d
    ensures NameKey in d <==> u.name.Some?
    ensures IpAddressKey in d <==> u.ipAddress.Some?
    ensures StatusKey in d <==> u.status.Some?
    ensures NameKey in d ==> d[NameKey] == u.name.value
    ensures IpAddressKey in d ==> d[IpAddressKey] == u.ipAddress.value
    ensures StatusKey in d ==> d[StatusKey] == u.status.value
    ensures d == map[] <==> u == EmptyUpdate
  {
    var all := u.Dict();
    map k | k in all && all[k].Some? :: all[k].value
  }

  /** `ServerResponse`: the base fields plus the id string and the owner. */
  datatype ServerResponse = ServerResponse(id: string, name: string, ipAddress: string, status: string, ownerEmail: Email) {

    function Base(): ServerBase {
      ServerBase(name, ipAddress, status)
    }
  }

  // ---------------------------------------------------------------------------
  // User schemas (the stored user and its optional profile fields)

  datatype UserProfileUpdate = UserProfileUpdate(
    firstName: Option<string>,
    lastName: Option<string>,
    age: Option<int>,
    phone: Option<string>,
    profilePhoto: Option<string>)

  const EmptyProfileUpdate := UserProfileUpdate(None, None, None, None, None)

  const ProfileKeys: set<string> := {FirstNameKey, LastNameKey, AgeKey, PhoneKey, ProfilePhotoKey}

  /** Validation of a profile body: every field optional, absent or null meaning `None`. */
  function ParseUserProfileUpdate(body: Body): (r: Result<UserProfileUpdate, ValidationError>)
    ensures r.Success? <==>
      && (forall k :: k in ProfileKeys - {AgeKey} && k in body ==> !body[k].JInt?)
      && (AgeKey in body ==> !body[AgeKey].JString?)
    ensures r.Success? ==>
      r.value.firstName == (if FirstNameKey in body && body[FirstNameKey].JString? then Some(body[FirstNameKey].str) else None)
    ensures r.Success? ==>
      r.value.lastName == (if LastNameKey in body && body[LastNameKey].JString? then Some(body[LastNameKey].str) else None)
    ensures r.Success? ==>
      r.value.age == (if AgeKey in body && body[AgeKey].JInt? then Some(body[AgeKey].num) else None)
    ensures r.Success? ==>
      r.value.phone == (if PhoneKey in body && body[PhoneKey].JString? then Some(body[PhoneKey].str) else None)
    ensures r.Success? ==>
      r.value.profilePhoto == (if ProfilePhotoKey in body && body[ProfilePhotoKey].JString? then Some(body[ProfilePhotoKey].str) else None)
    ensures body.Keys !! ProfileKeys ==> r == Success(EmptyProfileUpdate)
  {
    var firstName :- OptionalStr(body, FirstNameKey);
    var lastName :- OptionalStr(body, LastNameKey);
    var age :- OptionalInt(body, AgeKey);
    var phone :- OptionalStr(body, PhoneKey);
    var profilePhoto :- OptionalStr(body, ProfilePhotoKey);
    Success(UserProfileUpdate(firstName, lastName, age, phone, profilePhoto))
  }

  /** `UserInDB` without its creation timestamp. */
  datatype UserInDB = UserInDB(
    email: Email,
    hashedPassword: string,
    firstName: Option<string>,
    lastName: Option<string>,
    age: Option<int>,
    phone: Option<string>,
    profilePhoto: Option<string>)

  /**
    Validation of a stored user: email and hashed_password required, the
    profile fields read exactly as a profile body reads them.
   */
  function ParseUserInDB(body: Body): (r: Result<UserInDB, ValidationError>)
    ensures r.Success? <==>
      && EmailKey in body && body[EmailKey].JString?
      && HashedPasswordKey in body && body[HashedPasswordKey].JString?
      && ParseUserProfileUpdate(body).Success?
    ensures r.Success? ==> r.value.email == body[EmailKey].str && r.value.hashedPassword == body[HashedPasswordKey].str
    ensures r.Success? ==>
      var p := ParseUserProfileUpdate(body).value;
      && r.value.firstName == p.firstName && r.value.lastName == p.lastName && r.value.age == p.age
      && r.value.phone == p.phone && r.value.profilePhoto == p.profilePhoto
  {
    var email :- RequiredStr(body, EmailKey);
    var hashedPassword :- RequiredStr(body, HashedPasswordKey);
    var profile :- ParseUserProfileUpdate(body);
    Success(UserInDB(email, hashedPassword, profile.firstName, profile.lastName, profile.age, profile.phone, profile.profilePhoto))
  }

  /**
    A user record holding only an email and a password hash, as at sign-up,
    validates with every profile field at its `None` default.
   */
  lemma RegisteredUserHasEmptyProfile(email: Email, hash: string)
    ensures var r := ParseUserInDB(map[EmailKey := JString(email), HashedPasswordKey := JString(hash)]);
      && r.Success? && r.value.email == email && r.value.hashedPassword == hash
      && r.value.firstName.None? && r.value.lastName.None? && r.value.age.None?
      && r.value.phone.None? && r.value.profilePhoto.None?
  {
  }
}
