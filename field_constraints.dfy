/**
 * The declarative models of agrolens-backend/models.py: the `SoilTexture`
 * enumeration and the pydantic field constraints, written as validating
 * constructors. A failed validation answers the set of offending field
 * paths, as pydantic's `ValidationError` lists them.
 */
module FieldConstraints {
  import opened Common

  // ---------------------------------------------------------------------
  // SoilTexture

  datatype SoilTexture = Sandy | Loamy | Clay | Silt | ClayLoam | SandyLoam

  /** The member's string value. */
  function TextureValue(t: SoilTexture): string {
    match t
    case Sandy => "sandy"
    case Loamy => "loamy"
    case Clay => "clay"
    case Silt => "silt"
    case ClayLoam => "clay_loam"
    case SandyLoam => "sandy_loam"
  }

  const AllTextures: seq<SoilTexture> := [Sandy, Loamy, Clay, Silt, ClayLoam, SandyLoam]

  /** `SoilTexture(value)`: the member with that value, if any. */
  function ParseTexture(value: string): (r: Option<SoilTexture>)
    ensures r.Some? ==> TextureValue(r.value) == value
    ensures r.None? ==> forall t :: TextureValue(t) != value
  {
    if value == "sandy" then Some(Sandy)
    else if value == "loamy" then Some(Loamy)
    else if value == "clay" then Some(Clay)
    else if value == "silt" then Some(Silt)
    else if value == "clay_loam" then Some(ClayLoam)
    else if value == "sandy_loam" then Some(SandyLoam)
    else None
  }

  /** The enumeration has exactly six members with six different values, and
      parsing a member's value gives the member back. */
  lemma SixTexturesRoundTrip(t: SoilTexture)
    ensures t in AllTextures && |AllTextures| == 6
    ensures forall i, j :: 0 <= i < j < |AllTextures| ==> TextureValue(AllTextures[i]) != TextureValue(AllTextures[j])
    ensures ParseTexture(TextureValue(t)) == Some(t)
  {
    assert "sandy" != "sandy_loam" && "clay" != "clay_loam";
  }

  // ---------------------------------------------------------------------
  // Location

  datatype Location = Location(latitude: real, longitude: real)

  /** `Field(ge=lo, le=hi)`: both bounds inclusive. */
  predicate Within(x: real, lo: real, hi: real) {
    lo <= x <= hi
  }

  /** `Location(latitude=..., longitude=...)`. */
  function ValidateLocation(latitude: real, longitude: real): (r: Result<Location, set<string>>)
    ensures r.Success? <==> Within(latitude, -90.0, 90.0) && Within(longitude, -180.0, 180.0)
    ensures r.Success? ==> r.value == Location(latitude, longitude)
    ensures r.Failure? ==> r.error <= {"latitude", "longitude"}
    ensures r.Failure? ==> ("latitude" in r.error <==> !Within(latitude, -90.0, 90.0))
    ensures r.Failure? ==> ("longitude" in r.error <==> !Within(longitude, -180.0, 180.0))
  {
    var errors := (if Within(latitude, -90.0, 90.0) then {} else {"latitude"})
      + (if Within(longitude, -180.0, 180.0) then {} else {"longitude"});
    if errors == {} then Success(Location(latitude, longitude)) else Failure(errors)
  }

  /** The bounds themselves are accepted; anything beyond them is not. */
  lemma LocationBoundsInclusive(x: real)
    ensures ValidateLocation(90.0, -180.0).Success? && ValidateLocation(-90.0, 180.0).Success?
    ensures x > 90.0 ==> ValidateLocation(x, 0.0) == Failure({"latitude"})
    ensures x > 180.0 ==> ValidateLocation(0.0, -x) == Failure({"longitude"})
  {
    if x > 90.0 {
      assert ValidateLocation(x, 0.0).error == {"latitude"};
    }
    if x > 180.0 {
      assert ValidateLocation(0.0, -x).error == {"longitude"};
    }
  }

  // ---------------------------------------------------------------------
  // UserCreate

  datatype UserCreate = UserCreate(username: string, email: string, password: string)

  /** `UserCreate(...)`: a username of 3 to 50 characters and a password of
      at least 8; the e-mail address is not checked here. */
  function ValidateUserCreate(username: string, email: string, password: string): (r: Result<UserCreate, set<string>>)
    ensures r.Success? <==> 3 <= |username| <= 50 && 8 <= |password|
    ensures r.Success? ==> r.value == UserCreate(username, email, password)
    ensures r.Failure? ==> r.error <= {"username", "password"}
    ensures r.Failure? ==> ("username" in r.error <==> !(3 <= |username| <= 50))
    ensures r.Failure? ==> ("password" in r.error <==> |password| < 8)
  {
    var errors := (if 3 <= |username| <= 50 then {} else {"username"})
      + (if 8 <= |password| then {} else {"password"});
    if errors == {} then Success(UserCreate(username, email, password)) else Failure(errors)
  }

  // ---------------------------------------------------------------------
  // UserInDB and SoilImageRequest

  /** `SearchHistory` without its `soil_analysis` and raw data. */
  datatype SearchHistory = SearchHistory(timestamp: int, imageUrl: Option<string>, location: Option<Location>)

  datatype UserInDB = UserInDB(username: string, email: string, hashedPassword: string, createdAt: int, searchHistory: seq<SearchHistory>)

  /** `UserInDB(...)`: omitted fields take their factories' values, `now`
      for `created_at` and a fresh empty list for `search_history`. */
  function MakeUserInDB(username: string, email: string, hashedPassword: string,
                        createdAt: Option<int>, searchHistory: Option<seq<SearchHistory>>, now: int): (u: UserInDB)
    ensures u.searchHistory == (if searchHistory.Some? then searchHistory.value else [])
    ensures u.createdAt == (if createdAt.Some? then createdAt.value else now)
    ensures (u.username, u.email, u.hashedPassword) == (username, email, hashedPassword)
  {
    UserInDB(username, email, hashedPassword,
      match createdAt case Some(t) => t case None => now,
      match searchHistory case Some(h) => h case None => [])
  }

  datatype SoilImageRequest = SoilImageRequest(location: Option<Location>)

  /** `SoilImageRequest(...)`: the location may be left out, but one that is
      given must be a valid `Location`; its errors are reported under
      `location.`. */
  function ValidateSoilImageRequest(location: Option<(real, real)>): (r: Result<SoilImageRequest, set<string>>)
    ensures location.None? ==> r == Success(SoilImageRequest(None))
    ensures location.Some? ==> (r.Success? <==> ValidateLocation(location.value.0, location.value.1).Success?)
    ensures r.Success? && location.Some? ==> r.value.location == Some(Location(location.value.0, location.value.1))
    ensures r.Failure? ==> r.error <= {"location.latitude", "location.longitude"}
    ensures r.Failure? ==> ("location.latitude" in r.error <==> !Within(location.value.0, -90.0, 90.0))
    ensures r.Failure? ==> ("location.longitude" in r.error <==> !Within(location.value.1, -180.0, 180.0))
  {
    match location
    case None => Success(SoilImageRequest(None))
    case Some((latitude, longitude)) =>
      match ValidateLocation(latitude, longitude)
      case Success(l) => Success(SoilImageRequest(Some(l)))
      case Failure(errors) =>
        Failure((if "latitude" in errors then {"location.latitude"} else {})
          + (if "longitude" in errors then {"location.longitude"} else {}))
  }
}
