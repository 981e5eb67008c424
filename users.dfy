/**
  Users of the support bot and their levels (src/models/user.py): the `User` record built
  from the chat platform's user data, and the level database that decides who is a VIP.
*/
module Users {
  import opened Wrappers
  import opened Text

  datatype UserLevel = Vip | Standard | Regular

  /** The enum's stored value. */
  function LevelValue(l: UserLevel): string {
    match l
    case Vip => "vip"
    case Standard => "standard"
    case Regular => "regular"
  }

  /** `UserLevel(s)`: accepts exactly the stored values and nothing else. */
  function ParseLevel(s: string): (r: Option<UserLevel>)
    ensures forall l :: r == Some(l) <==> s == LevelValue(l)
  {
    if s == "vip" then Some(Vip)
    else if s == "standard" then Some(Standard)
    else if s == "regular" then Some(Regular)
    else None
  }

  /** The fields of a user as a value (what a ticket stores about its requester). */
  datatype UserData = UserData(
    slackId: string,
    name: string,
    email: Option<string>,
    level: UserLevel,
    tags: seq<string>)

  /** The chat platform's user record as far as `from_slack_user` reads it: each `Option`
      is `None` when the key is absent (`profile.email` is absent also when `profile` is). */
  datatype SlackUser = SlackUser(
    id: string,
    realName: Option<string>,
    name: Option<string>,
    profileEmail: Option<string>)

  /** The name `from_slack_user` picks: `real_name`, else `name`, else "Unknown". */
  function DisplayName(su: SlackUser): (n: string)
    ensures su.realName.Some? ==> n == su.realName.value
    ensures su.realName.None? && su.name.Some? ==> n == su.name.value
    ensures su.realName.None? && su.name.None? ==> n == "Unknown"
  {
    su.realName.GetOr(su.name.GetOr("Unknown"))
  }

  class User {
    var slackId: string
    var name: string
    var email: Option<string>
    var level: UserLevel
    var tags: seq<string>

    function Data(): UserData
      reads this
    {
      UserData(slackId, name, email, level, tags)
    }

    /** `User.from_slack_user`: the level is always REGULAR and the tags empty until the
        level database is consulted. */
    constructor FromSlackUser(su: SlackUser)
      ensures Data() == UserData(su.id, DisplayName(su), su.profileEmail, Regular, [])
    {
      slackId := su.id;
      name := DisplayName(su);
      email := su.profileEmail;
      level := Regular;
      tags := [];
    }
  }

  /** One stored entry of the user-levels file: `None` where the key is absent. */
  datatype LevelEntry = LevelEntry(level: Option<string>, tags: Option<seq<string>>)

  /** `UserLevel(s)` raised: the stored level, once lower-cased, names no level. */
  datatype LevelError = UnknownLevel(stored: string)

  datatype UserLevelDatabase = UserLevelDatabase(userLevels: map<string, LevelEntry>) {

    /** `get_user_level`: REGULAR for an unknown user or a missing level; otherwise the level
        whose value is the stored string lower-cased, and an error when there is none. */
    function GetUserLevel(userId: string): (r: Result<UserLevel, LevelError>)
      ensures userId !in userLevels ==> r == Ok(Regular)
      ensures userId in userLevels && userLevels[userId].level.None? ==> r == Ok(Regular)
      ensures userId in userLevels && userLevels[userId].level.Some? ==>
        var stored := userLevels[userId].level.value;
        && (forall l :: r == Ok(l) <==> Lower(stored) == LevelValue(l))
        && (r.Err? <==> r == Err(UnknownLevel(Lower(stored))))
    {
      if userId in userLevels then
        var levelStr := userLevels[userId].level.GetOr("regular");
        match ParseLevel(Lower(levelStr))
        case Some(l) => Ok(l)
        case None => Err(UnknownLevel(Lower(levelStr)))
      else Ok(Regular)
    }

    /** `get_user_tags`: the stored tags, or none for an unknown user or a missing key. */
    function GetUserTags(userId: string): (r: seq<string>)
      ensures userId in userLevels && userLevels[userId].tags.Some? ==> r == userLevels[userId].tags.value
      ensures userId !in userLevels || userLevels[userId].tags.None? ==> r == []
    {
      if userId in userLevels then userLevels[userId].tags.GetOr([]) else []
    }

    /** `update_user`: sets the user's level and tags from the database and returns the same
        user; when the stored level is invalid the source raises before assigning anything. */
    method UpdateUser(user: User) returns (r: Result<User, LevelError>)
      modifies user
      ensures r.Ok? <==> GetUserLevel(old(user.slackId)).Ok?
      ensures r.Ok? ==> r.value == user && user.Data() == old(user.Data()).(
        level := GetUserLevel(old(user.slackId)).value,
        tags := GetUserTags(old(user.slackId)))
      ensures r.Err? ==> r.error == GetUserLevel(old(user.slackId)).error && unchanged(user)
    {
      var level := GetUserLevel(user.slackId);
      if level.Err? {
        return Err(level.error);
      }
      user.level := level.value;
      user.tags := GetUserTags(user.slackId);
      r := Ok(user);
    }
  }

  /** A level stored in capitals still makes a VIP, because the lookup lower-cases it. */
  lemma CapitalVipIsVip(db: UserLevelDatabase, userId: string)
    requires userId in db.userLevels && db.userLevels[userId].level == Some("VIP")
    ensures db.GetUserLevel(userId) == Ok(Vip)
  {
    assert Lower("VIP") == "vip";
  }
}
