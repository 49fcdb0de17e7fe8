/** The back end's account and invite-code tables: registration, which
    consumes a one-time invite code, and the start-up seeding of the
    invite-code table. Both tables are maps keyed by their primary key. */
module Accounts {
  import opened Basics

  /** Why `/register` refuses, in the order it checks. */
  datatype RegisterError = UsernameTaken | InvalidCode | CodeAlreadyUsed

  /** The codes written when the invite-code table is found empty. */
  const DefaultInviteCodes: seq<string> := ["TURTLE_HKY"]

  /** The verdict of `/register`'s checks, first failing check first. A
      registration goes through exactly when the name is new and the code
      exists and is unused; a taken name is reported before a bad code,
      an unknown code before a used one, and a used code last. */
  function CheckRegistration(users: map<string, string>, codes: map<string, bool>, username: string, code: string)
    : (r: Option<RegisterError>)
    ensures r == None <==> username !in users && code in codes && !codes[code]
    ensures username in users ==> r == Some(UsernameTaken)
    ensures r == Some(InvalidCode) <==> username !in users && code !in codes
    ensures r == Some(CodeAlreadyUsed) <==> username !in users && code in codes && codes[code]
  {
    if username in users then Some(UsernameTaken)
    else if code !in codes then Some(InvalidCode)
    else if codes[code] then Some(CodeAlreadyUsed)
    else None
  }

  function UsedCodes(codes: map<string, bool>): set<string> {
    set c | c in codes && codes[c]
  }

  /** A successful registration adds exactly one user and turns exactly one
      unused code into a used one. */
  lemma RegistrationConsumesOneCode(users: map<string, string>, codes: map<string, bool>,
                                    username: string, hashed: string, code: string)
    requires CheckRegistration(users, codes, username, code) == None
    ensures |users[username := hashed]| == |users| + 1
    ensures UsedCodes(codes[code := true]) == UsedCodes(codes) + {code}
    ensures |UsedCodes(codes[code := true])| == |UsedCodes(codes)| + 1
  {
    assert users[username := hashed].Keys == users.Keys + {username};
    MarkingAddsOneUsedCode(codes, code);
  }

  lemma MarkingAddsOneUsedCode(codes: map<string, bool>, code: string)
    requires code in codes && !codes[code]
    ensures UsedCodes(codes[code := true]) == UsedCodes(codes) + {code}
    ensures code !in UsedCodes(codes)
  {
  }

  /** Once a code has let someone register, nobody else can register with it. */
  lemma CodeServesOnce(users: map<string, string>, codes: map<string, bool>,
                       username: string, hashed: string, code: string, other: string)
    requires CheckRegistration(users, codes, username, code) == None
    ensures CheckRegistration(users[username := hashed], codes[code := true], other, code).Some?
  {
  }

  /** The two tables. */
  class Database {
    /** username to password hash (the hashing itself is not modelled). */
    var users: map<string, string>
    /** invite code to `is_used`. */
    var codes: map<string, bool>

    constructor ()
      ensures users == map[] && codes == map[]
    {
      users := map[];
      codes := map[];
    }

    /** Start-up seeding: only an empty invite-code table receives the
        default codes, all unused; a non-empty one is left as it is. */
    method InitInviteCodes()
      modifies this
      ensures users == old(users)
      ensures |old(codes)| == 0 ==> codes == map c | c in DefaultInviteCodes :: false
      ensures |old(codes)| != 0 ==> codes == old(codes)
    {
      if |codes| == 0 {
        var i := 0;
        while i < |DefaultInviteCodes|
          invariant 0 <= i <= |DefaultInviteCodes|
          invariant codes == map c | c in DefaultInviteCodes[..i] :: false
          invariant users == old(users)
        {
          assert DefaultInviteCodes[..i + 1] == DefaultInviteCodes[..i] + [DefaultInviteCodes[i]];
          codes := codes[DefaultInviteCodes[i] := false];
          i := i + 1;
        }
        assert DefaultInviteCodes[..i] == DefaultInviteCodes;
      }
    }

    /** `/register`: a refused registration changes no table; an accepted one
        marks its code used and adds exactly one user. */
    method Register(username: string, hashed: string, code: string) returns (r: Result<(), RegisterError>)
      modifies this
      ensures var verdict := CheckRegistration(old(users), old(codes), username, code);
        match verdict
        case Some(e) => r == Failure(e) && users == old(users) && codes == old(codes)
        case None =>
          && r == Success(())
          && users == old(users)[username := hashed]
          && codes == old(codes)[code := true]
    {
      if username in users {
        return Failure(UsernameTaken);
      }
      if code !in codes {
        return Failure(InvalidCode);
      }
      if codes[code] {
        return Failure(CodeAlreadyUsed);
      }
      codes := codes[code := true];
      users := users[username := hashed];
      r := Success(());
    }
  }
}
