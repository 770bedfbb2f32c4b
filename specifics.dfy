/**
 * The read-only views of app/routes/specifics.js: a user's profile, a
 * startup's page, one contribution, the contributions to a startup and
 * the contribution summary. Each view decides, from who is asking, which
 * fields the answer carries.
 *
 * The asker is an input: `req.user` for the profile and the text of
 * `req.userId` for the other views. A property read from `undefined` or
 * `null` throws a TypeError, which the handlers' `catch` turns into a 500
 * with its message.
 */
module SpecificsRoutes {
  import opened Wrappers
  import opened Js
  import opened Sql
  import opened Http
  import opened Catalog

  // ---------------------------------------------------------------------
  // Profile: GET /user/:id?

  /** `a === b` between a property value and a path parameter (`undefined === undefined` holds). */
  predicate StrictEqualsText(v: Option<Json>, p: Option<string>)
  {
    match v
    case None => p.None?
    case Some(j) => j.JStr? && p == Some(j.s)
  }

  /** The claims carry `user_id` as exactly the text `userId`. */
  predicate ClaimsUser(reqUser: Option<Json>, userId: string)
  {
    reqUser.Some? && reqUser.value.JObj? && Get(reqUser.value.fields, "user_id") == Some(JStr(userId))
  }

  /** `req.user.user_id === userId`, which throws when `req.user` is `undefined` or `null`. */
  function SelfCheck(reqUser: Option<Json>, userId: Option<string>): (r: Result<bool, string>)
    ensures r.Failure? <==> reqUser.None? || reqUser == Some(JNull)
    ensures r.Failure? ==> r.error == ReadOfUndefined("user_id") || r.error == ReadOfNull("user_id")
    ensures r.Success? && userId.Some? ==>
              (r.value <==> ClaimsUser(reqUser, userId.value))
  {
    match Prop(reqUser, "user_id")
    case Failure(e) => Failure(e)
    case Success(v) => Success(StrictEqualsText(v, userId))
  }

  /**
   * The self check compares with `===` against the path parameter, which is
   * text: claims whose `user_id` is a number never see their own profile.
   */
  lemma NumericUserIdNeverOwner(n: int, claims: map<string, Json>, userId: string)
    requires "user_id" in claims && claims["user_id"] == JNum(n)
    ensures SelfCheck(Some(JObj(claims)), Some(userId)) == Success(false)
  {
  }

  /** The profile whose id the path names, if the id reads as an integer and the row exists. */
  function Viewed(c: Catalog, param: Option<string>): Option<UserRec>
  {
    match ParamId(param)
    case Failure(_) => None
    case Success(id) => UserById(c, id)
  }

  /** A nullable text column as it is serialised. */
  function TextOrNull(t: Option<string>): Json
  {
    if t.Some? then JStr(t.value) else JNull
  }

  /**
   * The profile is produced (200) when the id names a user, the self check
   * can be evaluated, a stranger's view can abbreviate the last name, and
   * the entrepreneur and contributor records the user points to exist.
   */
  predicate ProfileShown(c: Catalog, reqUser: Option<Json>, param: Option<string>)
  {
    Viewed(c, param).Some? && SelfCheck(reqUser, param).Success? &&
    var u := Viewed(c, param).value;
    var owner := SelfCheck(reqUser, param).value;
    (owner || u.lastName.Some?) &&
    (IdTruthy(u.entrepreneurId) ==> EntrepreneurById(c, u.entrepreneurId).Some?) &&
    (owner && IdTruthy(u.contributorId) ==> ContributorById(c, u.contributorId).Some?)
  }

  /**
   * Claims naming the profile's own id are the owner's: the owner's profile
   * is shown whenever the user and the records it points to exist, whatever
   * its last name.
   */
  lemma OwnerProfileShown(c: Catalog, claims: map<string, Json>, param: string)
    requires Get(claims, "user_id") == Some(JStr(param))
    ensures SelfCheck(Some(JObj(claims)), Some(param)) == Success(true)
    ensures ProfileShown(c, Some(JObj(claims)), Some(param)) <==>
              Viewed(c, Some(param)).Some? &&
              var u := Viewed(c, Some(param)).value;
              (IdTruthy(u.entrepreneurId) ==> EntrepreneurById(c, u.entrepreneurId).Some?) &&
              (IdTruthy(u.contributorId) ==> ContributorById(c, u.contributorId).Some?)
  {
    assert ClaimsUser(Some(JObj(claims)), param);
  }

  /** The ids of a list of contributions, in order. */
  function ContributionIds(cs: seq<ContributionRec>): (ids: seq<Json>)
    ensures |ids| == |cs|
    ensures forall i :: 0 <= i < |cs| ==> ids[i] == JNum(cs[i].contributionId)
  {
    if cs == [] then [] else [JNum(cs[0].contributionId)] + ContributionIds(cs[1..])
  }

  /** The owner's `entrepreneur` object: gender, and the passport, address and startup ids that exist. */
  predicate EntrepreneurShown(c: Catalog, e: EntrepreneurRec, j: Json)
  {
    var passport := DocById(c.passports, e.passportId);
    var address := DocById(c.addresses, e.addressId);
    var startup := StartupById(c, e.startupId);
    j.JObj? &&
    j.fields.Keys <= {"gender", "passport", "address", "startup_ids"} &&
    "gender" in j.fields && j.fields["gender"] == e.gender &&
    ("passport" in j.fields <==> passport.Some?) &&
    (passport.Some? ==> j.fields["passport"] == JObj(passport.value.row)) &&
    ("address" in j.fields <==> address.Some?) &&
    (address.Some? ==> j.fields["address"] == JObj(address.value.row)) &&
    ("startup_ids" in j.fields <==> startup.Some?) &&
    (startup.Some? ==> j.fields["startup_ids"] == JArr([JNum(startup.value.startupId)]))
  }

  /** The owner's `contributor` object: gender, the passport if it exists, and the ids of the contributions. */
  predicate ContributorShown(c: Catalog, x: ContributorRec, cid: Option<int>, j: Json)
  {
    var passport := DocById(c.passports, x.passportId);
    j.JObj? &&
    j.fields.Keys <= {"gender", "passport", "contribution_ids"} &&
    "gender" in j.fields && j.fields["gender"] == x.gender &&
    ("passport" in j.fields <==> passport.Some?) &&
    (passport.Some? ==> j.fields["passport"] == JObj(passport.value.row)) &&
    "contribution_ids" in j.fields &&
    j.fields["contribution_ids"] == JArr(ContributionIds(ContributionsByContributor(c, cid)))
  }

  /** Builds `profileData.entrepreneur` for the owner (app/routes/specifics.js:38-47). */
  method EntrepreneurPart(c: Catalog, e: EntrepreneurRec) returns (j: Json)
    ensures EntrepreneurShown(c, e, j)
  {
    var part: map<string, Json> := map["gender" := e.gender];
    var passport := DocById(c.passports, e.passportId);
    if passport.Some? {
      part := part["passport" := JObj(passport.value.row)];
    }
    var address := DocById(c.addresses, e.addressId);
    if address.Some? {
      part := part["address" := JObj(address.value.row)];
    }
    var startup := StartupById(c, e.startupId);
    if startup.Some? {
      part := part["startup_ids" := JArr([JNum(startup.value.startupId)])];
    }
    return JObj(part);
  }

  /** Builds `profileData.contributor` for the owner (app/routes/specifics.js:52-58). */
  method ContributorPart(c: Catalog, x: ContributorRec, cid: Option<int>) returns (j: Json)
    ensures ContributorShown(c, x, cid, j)
  {
    var part: map<string, Json> := map["gender" := x.gender];
    var passport := DocById(c.passports, x.passportId);
    if passport.Some? {
      part := part["passport" := JObj(passport.value.row)];
    }
    part := part["contribution_ids" := JArr(ContributionIds(ContributionsByContributor(c, cid)))];
    return JObj(part);
  }

  /** What the owner's profile holds. */
  predicate OwnerProfile(c: Catalog, u: UserRec, m: map<string, Json>)
  {
    m.Keys <= {"first_name", "last_name", "email", "phone_number", "entrepreneur", "contributor"} &&
    OwnBasics(c, u, m) &&
    ("entrepreneur" in m <==> IdTruthy(u.entrepreneurId)) &&
    ("entrepreneur" in m ==>
       EntrepreneurById(c, u.entrepreneurId).Some? &&
       EntrepreneurShown(c, EntrepreneurById(c, u.entrepreneurId).value, m["entrepreneur"])) &&
    ("contributor" in m <==> IdTruthy(u.contributorId)) &&
    ("contributor" in m ==>
       ContributorById(c, u.contributorId).Some? &&
       ContributorShown(c, ContributorById(c, u.contributorId).value, u.contributorId, m["contributor"]))
  }

  /** The fields every owner sees: the full name, the email and the phone number (NULL without a phone). */
  predicate OwnBasics(c: Catalog, u: UserRec, m: map<string, Json>)
  {
    var phone := PhoneById(c, u.phoneId);
    "first_name" in m && m["first_name"] == u.firstName &&
    "last_name" in m && m["last_name"] == TextOrNull(u.lastName) &&
    "email" in m && m["email"] == u.email &&
    "phone_number" in m && m["phone_number"] == (if phone.Some? then phone.value.phoneNumber else JNull)
  }

  /** Adding the entrepreneur or the contributor part keeps the basic fields. */
  lemma BasicsKept(c: Catalog, u: UserRec, m: map<string, Json>, k: string, v: Json)
    requires OwnBasics(c, u, m)
    requires k == "entrepreneur" || k == "contributor"
    ensures OwnBasics(c, u, m[k := v])
  {
  }

  /** What anyone else sees: the first name, the initial, and the startup ids if there are any. */
  predicate StrangerProfile(c: Catalog, u: UserRec, m: map<string, Json>)
    requires u.lastName.Some?
    requires IdTruthy(u.entrepreneurId) ==> EntrepreneurById(c, u.entrepreneurId).Some?
  {
    var startup := if IdTruthy(u.entrepreneurId)
                   then StartupById(c, EntrepreneurById(c, u.entrepreneurId).value.startupId)
                   else None;
    m.Keys <= {"first_name", "last_name", "startup_ids"} &&
    "first_name" in m && m["first_name"] == u.firstName &&
    "last_name" in m && m["last_name"] == JStr(Initial(u.lastName.value)) &&
    ("startup_ids" in m <==> startup.Some?) &&
    (startup.Some? ==> m["startup_ids"] == JArr([JNum(startup.value.startupId)]))
  }

  /** GET /user/:id? — `reqUser` is `req.user`, `param` the optional path parameter. */
  method ViewProfile(c: Catalog, reqUser: Option<Json>, param: Option<string>) returns (resp: Response)
    ensures resp.status == 200 || resp.status == 404 || resp.status == 500
    ensures ParamId(param).Failure? ==> resp == Error(500, ParamId(param).error)
    ensures resp.status == 404 <==> ParamId(param).Success? && Viewed(c, param).None?
    ensures resp.status == 404 ==> resp == Error(404, "User not found")
    ensures resp.status == 200 <==> ProfileShown(c, reqUser, param)
    // the failures once the user is found
    ensures Viewed(c, param).Some? && SelfCheck(reqUser, param).Failure? ==>
              resp == Error(500, SelfCheck(reqUser, param).error)
    ensures Viewed(c, param).Some? && SelfCheck(reqUser, param) == Success(false) &&
            Viewed(c, param).value.lastName.None? ==>
              resp == Error(500, ReadOfNull("charAt"))
    ensures resp.status == 500 && Viewed(c, param).Some? && SelfCheck(reqUser, param).Success? &&
            (SelfCheck(reqUser, param).value || Viewed(c, param).value.lastName.Some?) ==>
              resp == Error(500, ReadOfUndefined(
                if SelfCheck(reqUser, param).value then "gender" else "startup_id"))
    // what the answer holds, for the owner and for anyone else
    ensures resp.status == 200 ==> resp.body.JsonBody? && resp.body.json.JObj?
    ensures resp.status == 200 && SelfCheck(reqUser, param).value ==>
              OwnerProfile(c, Viewed(c, param).value, resp.body.json.fields)
    ensures resp.status == 200 && !SelfCheck(reqUser, param).value ==>
              StrangerProfile(c, Viewed(c, param).value, resp.body.json.fields)
    // the owner is whoever's claims carry the path's id as `user_id`
    ensures resp.status == 200 ==> param.Some?
    ensures resp.status == 200 && ClaimsUser(reqUser, param.value) ==>
              OwnerProfile(c, Viewed(c, param).value, resp.body.json.fields)
    ensures resp.status == 200 && !ClaimsUser(reqUser, param.value) ==>
              StrangerProfile(c, Viewed(c, param).value, resp.body.json.fields)
  {
    var id := ParamId(param);
    if id.Failure? {
      return Error(500, id.error);
    }
    var user := UserById(c, id.value);
    if user.None? {
      return Error(404, "User not found");
    }
    var u := user.value;
    var self := SelfCheck(reqUser, param);
    if self.Failure? {
      return Error(500, self.error);
    }
    var owner := self.value;
    if !owner && u.lastName.None? {
      return Error(500, ReadOfNull("charAt"));
    }
    if owner {
      resp := OwnerView(c, u);
    } else {
      resp := StrangerView(c, u);
    }
  }

  /** The owner's branch (app/routes/specifics.js:25-59). */
  method OwnerView(c: Catalog, u: UserRec) returns (resp: Response)
    ensures resp.status == 200 <==>
              (IdTruthy(u.entrepreneurId) ==> EntrepreneurById(c, u.entrepreneurId).Some?) &&
              (IdTruthy(u.contributorId) ==> ContributorById(c, u.contributorId).Some?)
    ensures resp.status != 200 ==> resp == Error(500, ReadOfUndefined("gender"))
    ensures resp.status == 200 ==>
              resp.body.JsonBody? && resp.body.json.JObj? && OwnerProfile(c, u, resp.body.json.fields)
  {
    var phone := PhoneById(c, u.phoneId);
    var profile: map<string, Json> := map["first_name" := u.firstName, "last_name" := TextOrNull(u.lastName)];
    profile := profile["email" := u.email];
    profile := profile["phone_number" := if phone.Some? then phone.value.phoneNumber else JNull];
    if IdTruthy(u.entrepreneurId) {
      var entrepreneur := EntrepreneurById(c, u.entrepreneurId);
      if entrepreneur.None? {
        return Error(500, ReadOfUndefined("gender"));
      }
      var part := EntrepreneurPart(c, entrepreneur.value);
      BasicsKept(c, u, profile, "entrepreneur", part);
      profile := profile["entrepreneur" := part];
    }
    if IdTruthy(u.contributorId) {
      var contributor := ContributorById(c, u.contributorId);
      if contributor.None? {
        return Error(500, ReadOfUndefined("gender"));
      }
      var part := ContributorPart(c, contributor.value, u.contributorId);
      BasicsKept(c, u, profile, "contributor", part);
      profile := profile["contributor" := part];
    }
    return Send(200, JObj(profile));
  }

  /** Anyone else's branch (app/routes/specifics.js:25-28, 60-69). */
  method StrangerView(c: Catalog, u: UserRec) returns (resp: Response)
    requires u.lastName.Some?
    ensures resp.status == 200 <==> (IdTruthy(u.entrepreneurId) ==> EntrepreneurById(c, u.entrepreneurId).Some?)
    ensures resp.status != 200 ==> resp == Error(500, ReadOfUndefined("startup_id"))
    ensures resp.status == 200 ==>
              resp.body.JsonBody? && resp.body.json.JObj? && StrangerProfile(c, u, resp.body.json.fields)
  {
    var profile: map<string, Json> := map["first_name" := u.firstName, "last_name" := JStr(Initial(u.lastName.value))];
    if IdTruthy(u.entrepreneurId) {
      var entrepreneur := EntrepreneurById(c, u.entrepreneurId);
      if entrepreneur.None? {
        return Error(500, ReadOfUndefined("startup_id"));
      }
      var startup := StartupById(c, entrepreneur.value.startupId);
      if startup.Some? {
        profile := profile["startup_ids" := JArr([JNum(startup.value.startupId)])];
      }
    }
    return Send(200, JObj(profile));
  }

  // ---------------------------------------------------------------------
  // Startup page: GET /startup/:id

  /** The card keys taken from the startup's own columns. */
  const CardKeys: set<string> :=
    {"title", "status", "end_date", "description", "video", "donated_amount",
     "number_of_contributors", "rating", "type", "batch"}

  /** The column a card key is read from. */
  function CardColumn(key: string): string
  {
    if key == "status" then "active_status" else if key == "video" then "video_link" else key
  }

  /** `region ? region.name : null`. */
  function NameOrNull(r: Option<NamedRec>): Json
  {
    if r.Some? then r.value.name else JNull
  }

  /**
   * The card every visitor sees (app/routes/specifics.js:88-101): the
   * startup's columns under their card names — a column the row lacks is
   * `undefined` and left out when serialised — and the region and category
   * names, null when those records are missing.
   */
  function Card(c: Catalog, s: StartupRec): (m: map<string, Json>)
    ensures m.Keys <= CardKeys + {"region", "category"}
    ensures forall k :: k in CardKeys ==> (k in m <==> CardColumn(k) in s.columns)
    ensures forall k :: k in CardKeys && k in m ==> m[k] == s.columns[CardColumn(k)]
    ensures "region" in m && m["region"] == NameOrNull(NamedById(c.regions, s.regionId))
    ensures "category" in m && m["category"] == NameOrNull(NamedById(c.categories, s.categoryId))
  {
    var columns := map k | k in CardKeys && CardColumn(k) in s.columns :: s.columns[CardColumn(k)];
    columns["region" := NameOrNull(NamedById(c.regions, s.regionId))]
           ["category" := NameOrNull(NamedById(c.categories, s.categoryId))]
  }

  /** The three keys the page may add are not card keys. */
  lemma CardLeavesRoom(c: Catalog, s: StartupRec)
    ensures "agreement" !in Card(c, s) && "entrepreneur_name" !in Card(c, s) && "entrepreneur_email" !in Card(c, s)
  {
    forall k | k in CardKeys + {"region", "category"}
      ensures |k| != 9 && |k| != 17 && |k| != 18
    {
    }
    assert |"agreement"| == 9 && |"entrepreneur_name"| == 17 && |"entrepreneur_email"| == 18;
  }

  /** `${u.first_name} ${u.last_name.charAt(0)}.`: the first name and the last-name initial. */
  function DisplayName(u: UserRec): (name: string)
    requires u.lastName.Some?
    ensures var first := JsonToString(u.firstName);
            |name| == |first| + (if u.lastName.value == [] then 2 else 3) &&
            name[..|first| + 1] == first + " " && name[|name| - 1] == '.' &&
            (u.lastName.value != [] ==> name[|first| + 1] == u.lastName.value[0])
  {
    JsonToString(u.firstName) + " " + Initial(u.lastName.value)
  }

  /** The startup the path names, if its id reads as an integer and the row exists. */
  function PageStartup(c: Catalog, param: string): Option<StartupRec>
  {
    match ParamId(Some(param))
    case Failure(_) => None
    case Success(id) => StartupById(c, id)
  }

  /** The user `req.userId` names, if it reads as an integer and the row exists. */
  function Asker(c: Catalog, viewer: Option<string>): Option<UserRec>
  {
    match ParamId(viewer)
    case Failure(_) => None
    case Success(id) => UserById(c, id)
  }

  /** The asker is the entrepreneur `findOne` returns for the startup. */
  predicate IsEntrepreneurOf(c: Catalog, u: UserRec, s: StartupRec)
  {
    EntrepreneurByStartup(c, s.startupId).Some? &&
    u.entrepreneurId == Some(EntrepreneurByStartup(c, s.startupId).value.entrepreneurId)
  }

  /** The asker has a contributor id and a contribution to the startup under it. */
  predicate HasContributed(c: Catalog, u: UserRec, s: StartupRec)
  {
    IdTruthy(u.contributorId) && ContributionExists(c, s.startupId, u.contributorId.value)
  }

  /** The user behind the startup's entrepreneur, when the name line can be built. */
  predicate FounderNamed(c: Catalog, s: StartupRec)
  {
    var e := EntrepreneurByStartup(c, s.startupId);
    e.Some? && UserByEntrepreneur(c, e.value.entrepreneurId).Some? &&
    UserByEntrepreneur(c, e.value.entrepreneurId).value.lastName.Some?
  }

  /** What the startup page holds for an asker `u`. */
  predicate StartupPage(c: Catalog, s: StartupRec, u: UserRec, m: map<string, Json>)
  {
    var card := Card(c, s);
    var e := EntrepreneurByStartup(c, s.startupId);
    var agreement := DocById(c.agreements, s.agreementId);
    m.Keys <= card.Keys + {"agreement", "entrepreneur_name", "entrepreneur_email"} &&
    (forall k :: k in card ==> k in m && m[k] == card[k]) &&
    ("agreement" in m <==> (IsEntrepreneurOf(c, u, s) || HasContributed(c, u, s)) && agreement.Some?) &&
    ("agreement" in m ==> agreement.Some? && m["agreement"] == JObj(agreement.value.row)) &&
    ("entrepreneur_name" in m <==> e.Some?) &&
    ("entrepreneur_name" in m ==>
       FounderNamed(c, s) &&
       m["entrepreneur_name"] == JStr(DisplayName(UserByEntrepreneur(c, e.value.entrepreneurId).value))) &&
    ("entrepreneur_email" in m <==> e.Some? && HasContributed(c, u, s)) &&
    ("entrepreneur_email" in m ==>
       FounderNamed(c, s) &&
       m["entrepreneur_email"] == UserByEntrepreneur(c, e.value.entrepreneurId).value.email)
  }

  /** GET /startup/:id — `viewer` is the text of `req.userId`, `param` the path parameter. */
  method ViewStartup(c: Catalog, viewer: Option<string>, param: string) returns (resp: Response)
    ensures resp.status == 200 || resp.status == 404 || resp.status == 500
    ensures ParamId(Some(param)).Failure? ==> resp == Error(500, ParamId(Some(param)).error)
    ensures resp.status == 404 <==> ParamId(Some(param)).Success? && PageStartup(c, param).None?
    ensures resp.status == 404 ==> resp == Error(404, "Startup not found")
    ensures PageStartup(c, param).Some? && ParamId(viewer).Failure? ==> resp == Error(500, ParamId(viewer).error)
    ensures PageStartup(c, param).Some? && ParamId(viewer).Success? && Asker(c, viewer).None? ==>
              resp == Error(500, ReadOfUndefined(
                if EntrepreneurByStartup(c, PageStartup(c, param).value.startupId).Some?
                then "entrepreneur_id" else "contributor_id"))
    ensures resp.status == 200 <==>
              PageStartup(c, param).Some? && Asker(c, viewer).Some? &&
              (EntrepreneurByStartup(c, PageStartup(c, param).value.startupId).Some? ==>
                 FounderNamed(c, PageStartup(c, param).value))
    ensures resp.status == 200 ==>
              resp.body.JsonBody? && resp.body.json.JObj? &&
              StartupPage(c, PageStartup(c, param).value, Asker(c, viewer).value, resp.body.json.fields)
  {
    var id := ParamId(Some(param));
    if id.Failure? {
      return Error(500, id.error);
    }
    var startup := StartupById(c, id.value);
    if startup.None? {
      return Error(404, "Startup not found");
    }
    var s := startup.value;
    var viewerId := ParamId(viewer);
    if viewerId.Failure? {
      return Error(500, viewerId.error);
    }
    var user := UserById(c, viewerId.value);
    var entrepreneur := EntrepreneurByStartup(c, s.startupId);
    if user.None? {
      return Error(500, ReadOfUndefined(if entrepreneur.Some? then "entrepreneur_id" else "contributor_id"));
    }
    var extras := StartupExtras(c, s, user.value);
    if extras.Failure? {
      return Error(500, extras.error);
    }
    CardWithExtras(c, s, user.value, extras.value);
    return Send(200, JObj(Card(c, s) + extras.value));
  }

  /** The fields the page adds to the card for an asker `u`. */
  predicate ExtrasShown(c: Catalog, s: StartupRec, u: UserRec, x: map<string, Json>)
  {
    var e := EntrepreneurByStartup(c, s.startupId);
    var agreement := DocById(c.agreements, s.agreementId);
    x.Keys <= {"agreement", "entrepreneur_name", "entrepreneur_email"} &&
    ("agreement" in x <==> (IsEntrepreneurOf(c, u, s) || HasContributed(c, u, s)) && agreement.Some?) &&
    ("agreement" in x ==> agreement.Some? && x["agreement"] == JObj(agreement.value.row)) &&
    ("entrepreneur_name" in x <==> e.Some?) &&
    ("entrepreneur_name" in x ==>
       FounderNamed(c, s) &&
       x["entrepreneur_name"] == JStr(DisplayName(UserByEntrepreneur(c, e.value.entrepreneurId).value))) &&
    ("entrepreneur_email" in x <==> e.Some? && HasContributed(c, u, s)) &&
    ("entrepreneur_email" in x ==>
       FounderNamed(c, s) &&
       x["entrepreneur_email"] == UserByEntrepreneur(c, e.value.entrepreneurId).value.email)
  }

  /** The card with the added fields is the page. */
  lemma CardWithExtras(c: Catalog, s: StartupRec, u: UserRec, x: map<string, Json>)
    requires ExtrasShown(c, s, u, x)
    ensures StartupPage(c, s, u, Card(c, s) + x)
  {
    CardLeavesRoom(c, s);
    var card := Card(c, s);
    var m := card + x;
    forall k | k in card
      ensures k in m && m[k] == card[k]
    {
      assert k !in x;
    }
  }

  /**
   * The fields added to the card (app/routes/specifics.js:103-129): the
   * agreement for the startup's entrepreneur and its contributors, the
   * founder's name for everyone, and the founder's email for contributors.
   * Fails with the TypeError the handler would throw.
   */
  method StartupExtras(c: Catalog, s: StartupRec, u: UserRec) returns (r: Result<map<string, Json>, string>)
    ensures r.Success? <==> (EntrepreneurByStartup(c, s.startupId).Some? ==> FounderNamed(c, s))
    ensures r.Failure? ==> r.error == ReadOfUndefined("first_name") || r.error == ReadOfNull("charAt")
    ensures r.Success? ==> ExtrasShown(c, s, u, r.value)
  {
    var data: map<string, Json> := map[];
    var entrepreneur := EntrepreneurByStartup(c, s.startupId);
    var isEntrepreneur := entrepreneur.Some? && u.entrepreneurId == Some(entrepreneur.value.entrepreneurId);
    var isContributor := if IdTruthy(u.contributorId) then ContributionExists(c, s.startupId, u.contributorId.value)
                         else false;

    if isEntrepreneur || isContributor {
      var agreement := DocById(c.agreements, s.agreementId);
      if agreement.Some? {
        data := data["agreement" := JObj(agreement.value.row)];
      }
    }

    if entrepreneur.Some? {
      var founder := UserByEntrepreneur(c, entrepreneur.value.entrepreneurId);
      if founder.None? {
        return Failure(ReadOfUndefined("first_name"));
      }
      if founder.value.lastName.None? {
        return Failure(ReadOfNull("charAt"));
      }
      data := data["entrepreneur_name" := JStr(DisplayName(founder.value))];
      if isContributor {
        data := data["entrepreneur_email" := founder.value.email];
      }
    }
    return Success(data);
  }

  // ---------------------------------------------------------------------
  // One contribution: GET /contribution/:id

  /** The contribution the path names, if its id reads as an integer and the row exists. */
  function PageContribution(c: Catalog, param: string): Option<ContributionRec>
  {
    match ParamId(Some(param))
    case Failure(_) => None
    case Success(id) => ContributionById(c, id)
  }

  /**
   * `user.contributor_id === contribution.contributor_id`. Both may be NULL,
   * and `null === null` holds: a user who is no contributor matches every
   * contribution whose contributor is NULL.
   */
  predicate IsContributorOf(u: UserRec, cn: ContributionRec)
  {
    u.contributorId == cn.contributorId
  }

  /**
   * The asker's entrepreneur record exists and points at the startup the
   * contribution went to (app/routes/specifics.js:181-188).
   */
  predicate IsEntrepreneurFor(c: Catalog, u: UserRec, cn: ContributionRec)
  {
    IdTruthy(u.entrepreneurId) &&
    StartupById(c, cn.startupId).Some? && EntrepreneurById(c, u.entrepreneurId).Some? &&
    EntrepreneurById(c, u.entrepreneurId).value.startupId == Some(StartupById(c, cn.startupId).value.startupId)
  }

  /** The user behind the contribution's contributor, when the name line can be built. */
  predicate ContributorNamed(c: Catalog, cn: ContributionRec)
  {
    var x := ContributorById(c, cn.contributorId);
    x.Some? && UserByContributor(c, x.value.contributorId).Some? &&
    UserByContributor(c, x.value.contributorId).value.lastName.Some?
  }

  /** What the contribution page holds for an asker `u`. */
  predicate ContributionPage(c: Catalog, cn: ContributionRec, u: UserRec, m: map<string, Json>)
  {
    m.Keys <= {"startup_id", "date", "amount", "contributor_name"} &&
    "startup_id" in m && m["startup_id"] == IdJson(cn.startupId) &&
    "date" in m && m["date"] == JNum(cn.startDate) &&
    "amount" in m && m["amount"] == JNum(cn.amount) &&
    ("contributor_name" in m <==> IsEntrepreneurFor(c, u, cn)) &&
    ("contributor_name" in m ==>
       ContributorNamed(c, cn) &&
       m["contributor_name"] ==
         JStr(DisplayName(UserByContributor(c, ContributorById(c, cn.contributorId).value.contributorId).value)))
  }

  /** GET /contribution/:id — `viewer` is the text of `req.userId`, `param` the path parameter. */
  method ViewContribution(c: Catalog, viewer: Option<string>, param: string) returns (resp: Response)
    ensures resp.status == 200 || resp.status == 403 || resp.status == 404 || resp.status == 500
    ensures ParamId(Some(param)).Failure? ==> resp == Error(500, ParamId(Some(param)).error)
    ensures resp.status == 404 <==> ParamId(Some(param)).Success? && PageContribution(c, param).None?
    ensures resp.status == 404 ==> resp == Error(404, "Contribution not found")
    ensures PageContribution(c, param).Some? && ParamId(viewer).Failure? ==> resp == Error(500, ParamId(viewer).error)
    ensures PageContribution(c, param).Some? && ParamId(viewer).Success? && Asker(c, viewer).None? ==>
              resp == Error(500, ReadOfUndefined("contributor_id"))
    // access: the contributor or the startup's entrepreneur, no one else
    ensures resp.status == 403 <==>
              PageContribution(c, param).Some? && Asker(c, viewer).Some? &&
              !IsContributorOf(Asker(c, viewer).value, PageContribution(c, param).value) &&
              !IsEntrepreneurFor(c, Asker(c, viewer).value, PageContribution(c, param).value)
    ensures resp.status == 403 ==> resp == Error(403, "Access denied")
    ensures resp.status == 200 <==>
              PageContribution(c, param).Some? && Asker(c, viewer).Some? &&
              (IsContributorOf(Asker(c, viewer).value, PageContribution(c, param).value) ||
               IsEntrepreneurFor(c, Asker(c, viewer).value, PageContribution(c, param).value)) &&
              (IsEntrepreneurFor(c, Asker(c, viewer).value, PageContribution(c, param).value) ==>
                 ContributorNamed(c, PageContribution(c, param).value))
    ensures resp.status == 200 ==>
              resp.body.JsonBody? && resp.body.json.JObj? &&
              ContributionPage(c, PageContribution(c, param).value, Asker(c, viewer).value, resp.body.json.fields)
  {
    var id := ParamId(Some(param));
    if id.Failure? {
      return Error(500, id.error);
    }
    var contribution := ContributionById(c, id.value);
    if contribution.None? {
      return Error(404, "Contribution not found");
    }
    var cn := contribution.value;
    assert PageContribution(c, param) == Some(cn);

    var viewerId := ParamId(viewer);
    if viewerId.Failure? {
      return Error(500, viewerId.error);
    }
    var user := UserById(c, viewerId.value);
    if user.None? {
      return Error(500, ReadOfUndefined("contributor_id"));
    }
    var u := user.value;
    assert Asker(c, viewer) == Some(u);
    var isContributor := u.contributorId == cn.contributorId;

    var isEntrepreneur := false;
    if IdTruthy(u.entrepreneurId) {
      var startup := StartupById(c, cn.startupId);
      if startup.Some? {
        var entrepreneur := EntrepreneurById(c, u.entrepreneurId);
        isEntrepreneur := entrepreneur.Some? && entrepreneur.value.startupId == Some(startup.value.startupId);
      }
    }

    assert isEntrepreneur == IsEntrepreneurFor(c, u, cn);
    if !isContributor && !isEntrepreneur {
      return Error(403, "Access denied");
    }

    resp := ContributionReply(c, cn, u);
  }

  /**
   * The page for an asker who passed the access check
   * (app/routes/specifics.js:194-206): the contribution's startup, date and
   * amount, and for the startup's entrepreneur the contributor's name too.
   */
  method ContributionReply(c: Catalog, cn: ContributionRec, u: UserRec) returns (resp: Response)
    ensures resp.status == 200 || resp.status == 500
    ensures resp.status == 200 <==> (IsEntrepreneurFor(c, u, cn) ==> ContributorNamed(c, cn))
    ensures resp.status == 500 ==>
              resp == Error(500, ReadOfUndefined("contributor_id")) ||
              resp == Error(500, ReadOfUndefined("first_name")) ||
              resp == Error(500, ReadOfNull("charAt"))
    ensures resp.status == 200 ==>
              resp.body.JsonBody? && resp.body.json.JObj? && ContributionPage(c, cn, u, resp.body.json.fields)
  {
    var data: map<string, Json> :=
      map["startup_id" := IdJson(cn.startupId), "date" := JNum(cn.startDate), "amount" := JNum(cn.amount)];

    if IsEntrepreneurFor(c, u, cn) {
      var contributor := ContributorById(c, cn.contributorId);
      if contributor.None? {
        return Error(500, ReadOfUndefined("contributor_id"));
      }
      var author := UserByContributor(c, contributor.value.contributorId);
      if author.None? {
        return Error(500, ReadOfUndefined("first_name"));
      }
      if author.value.lastName.None? {
        return Error(500, ReadOfNull("charAt"));
      }
      data := data["contributor_name" := JStr(DisplayName(author.value))];
    }
    return Send(200, JObj(data));
  }

  /** A user with no contributor id may read any contribution whose contributor is NULL. */
  lemma NullContributorMatchesNull(u: UserRec, cn: ContributionRec)
    requires u.contributorId.None? && cn.contributorId.None?
    ensures IsContributorOf(u, cn)
  {
  }

  // ---------------------------------------------------------------------
  // Contributions to a startup: GET /contribution/all/:id

  /** `{ id, startup_id, date, amount }` for one contribution. */
  function Listing(cn: ContributionRec): Json
  {
    JObj(map["id" := JNum(cn.contributionId), "startup_id" := IdJson(cn.startupId),
             "date" := JNum(cn.startDate), "amount" := JNum(cn.amount)])
  }

  /** `contributions.map(...)`: one listing per contribution, same length, same order. */
  function Listings(cs: seq<ContributionRec>): (items: seq<Json>)
    ensures |items| == |cs|
    ensures forall i :: 0 <= i < |cs| ==> items[i] == Listing(cs[i])
  {
    if cs == [] then [] else [Listing(cs[0])] + Listings(cs[1..])
  }

  /** GET /contribution/all/:id. */
  function StartupContributions(c: Catalog, param: string): (resp: Response)
    ensures ParamId(Some(param)).Failure? ==> resp == Error(500, ParamId(Some(param)).error)
    ensures resp.status == 404 <==>
              ParamId(Some(param)).Success? && ContributionsByStartup(c, ParamId(Some(param)).value) == []
    ensures resp.status == 404 ==> resp == Error(404, "No contributions found for this startup")
    ensures resp.status == 200 ==>
              var found := ContributionsByStartup(c, ParamId(Some(param)).value);
              |found| > 0 && resp.body == JsonBody(JArr(Listings(found))) &&
              forall i :: 0 <= i < |found| ==> found[i].startupId == ParamId(Some(param)).value
    ensures resp.status == 200 || resp.status == 404 || resp.status == 500
  {
    match ParamId(Some(param))
    case Failure(e) => Error(500, e)
    case Success(id) =>
      var found := ContributionsByStartup(c, id);
      if found == [] then Error(404, "No contributions found for this startup")
      else Send(200, JArr(Listings(found)))
  }

  // ---------------------------------------------------------------------
  // Summary: GET /contribution/summary

  /** Seven days in milliseconds. */
  const Week: int := 7 * 24 * 60 * 60 * 1000

  /** `reduce((sum, c) => sum + c.amount, 0)`. */
  function TotalAmount(cs: seq<ContributionRec>): (total: int)
    ensures (forall i :: 0 <= i < |cs| ==> cs[i].amount >= 0) ==> total >= 0
  {
    if cs == [] then 0 else TotalAmount(cs[..|cs| - 1]) + cs[|cs| - 1].amount
  }

  /** The positions of the contributions that started at or after `cutoff`. */
  function RecentPositions(cs: seq<ContributionRec>, cutoff: int): set<int>
  {
    set i | 0 <= i < |cs| && cs[i].startDate >= cutoff
  }

  /** The contributions that started at or after `cutoff`, in order. */
  function Recent(cs: seq<ContributionRec>, cutoff: int): (r: seq<ContributionRec>)
    ensures |r| == |RecentPositions(cs, cutoff)|
    ensures forall i :: 0 <= i < |r| ==> r[i] in cs && r[i].startDate >= cutoff
    ensures forall i :: 0 <= i < |cs| && cs[i].startDate >= cutoff ==> cs[i] in r
  {
    var keep := (x: ContributionRec) => x.startDate >= cutoff;
    FilterCount(cs, keep);
    assert Matching(cs, keep) == RecentPositions(cs, cutoff);
    Filter(cs, keep)
  }

  /** The summary of all contributions at time `now` (milliseconds since the epoch). */
  function Summary(cs: seq<ContributionRec>, now: int): (j: Json)
    ensures j.JObj? && j.fields.Keys == {"total_amount", "total_contributions", "recent_contributions"}
    ensures j.fields["total_amount"] == JNum(TotalAmount(cs))
    ensures j.fields["total_contributions"] == JNum(|cs|)
    ensures j.fields["recent_contributions"] == JNum(|RecentPositions(cs, now - Week)|)
  {
    JObj(map["total_amount" := JNum(TotalAmount(cs)),
             "total_contributions" := JNum(|cs|),
             "recent_contributions" := JNum(|Recent(cs, now - Week)|)])
  }

  /** The total over two runs of contributions is the sum of their totals. */
  lemma {:induction false} TotalAmountAppend(a: seq<ContributionRec>, b: seq<ContributionRec>)
    ensures TotalAmount(a + b) == TotalAmount(a) + TotalAmount(b)
    decreases |b|
  {
    if b == [] {
      assert a + b == a;
    } else {
      var last := b[|b| - 1];
      var front := b[..|b| - 1];
      assert (a + b)[..|a + b| - 1] == a + front;
      TotalAmountAppend(a, front);
    }
  }

  /** Folding from the left gives the first amount plus the total of the rest. */
  lemma TotalAmountFront(cs: seq<ContributionRec>)
    requires cs != []
    ensures TotalAmount(cs) == cs[0].amount + TotalAmount(cs[1..])
  {
    TotalAmountAppend([cs[0]], cs[1..]);
    assert [cs[0]] + cs[1..] == cs;
    assert TotalAmount([cs[0]]) == TotalAmount([]) + cs[0].amount;
  }

  /** Amounts between 0 and `bound` add up to at least 0 and at most their count times `bound`. */
  lemma {:induction false} TotalAmountBounded(cs: seq<ContributionRec>, bound: int)
    requires forall i :: 0 <= i < |cs| ==> 0 <= cs[i].amount <= bound
    ensures 0 <= TotalAmount(cs) <= |cs| * bound
    decreases |cs|
  {
    if cs != [] {
      TotalAmountBounded(cs[..|cs| - 1], bound);
    }
  }

  /** A later cutoff never counts more recent contributions. */
  lemma {:induction false} RecentShrinks(cs: seq<ContributionRec>, early: int, late: int)
    requires early <= late
    ensures |Recent(cs, late)| <= |Recent(cs, early)|
    decreases |cs|
  {
    if cs != [] {
      RecentShrinks(cs[1..], early, late);
    }
  }
}
