/**
 * The account rules of the authentication service: username availability,
 * e-mail registration with its normalisation and profile defaults, and the
 * username a first Google sign-in generates. The identity provider is not
 * modelled: the account it creates (or the error it raises) is a parameter.
 */
module AuthService {
  import opened Common
  import opened RtdbService

  const ABOUT_DEFAULT := "Hey there! I am using ZyChat."
  const USERNAME_TAKEN := "Username already exists, please choose another."

  /** What the identity provider reports for a signed-in account. */
  datatype Account = Account(uid: string, email: Option<string>)

  /** What a Google sign-in reports: the account and the provider's profile fields. */
  datatype GoogleUser = GoogleUser(uid: string, email: string, displayName: Option<string>,
                                   phoneNumber: Option<string>, photoURL: Option<string>)

  /**
   * The names a lookup of usernames/{name} finds: every key of the index
   * and, once the index holds any entry, the empty name too, because the
   * path usernames/ denotes the whole index node.
   */
  function TakenNames(index: map<string, string>): (r: set<string>)
    ensures forall name :: name in r <==> name in index || (name == "" && |index| > 0)
  {
    if |index| > 0 then index.Keys + {""} else index.Keys
  }

  /** The empty name is free exactly while nobody has registered. */
  lemma EmptyNameFreeIffIndexEmpty(index: map<string, string>)
    ensures "" !in TakenNames(index) <==> |index| == 0
  {
  }

  /** A character the database refuses in a path: ".", "#", "$", "[", "]" or an ASCII control character. */
  predicate ForbiddenInPath(c: char)
  {
    c == '.' || c == '#' || c == '$' || c == '[' || c == ']' || c as int < 0x20 || c as int == 0x7F
  }

  /** A path `ref` accepts; "/" is allowed and separates the path's segments. */
  predicate ValidPath(path: string)
  {
    forall i :: 0 <= i < |path| ==> !ForbiddenInPath(path[i])
  }

  /** The path of a name's entry in the username index. */
  function UsernamePath(name: string): (path: string)
    ensures ValidPath(path) <==> ValidPath(name)
  {
    var path := "usernames/" + name;
    assert forall i :: 0 <= i < |name| ==> path[10 + i] == name[i];
    path
  }

  /** The error `ref` raises for a path with a forbidden character. */
  function InvalidPathError(path: string): (m: string)
    ensures |m| > 0 && m != USERNAME_TAKEN
  {
    "child failed: path argument was an invalid path = \"" + path
      + "\". Paths must be non-empty strings and can't contain \".\", \"#\", \"$\", \"[\", or \"]\""
  }

  /** checkUsernameAvailable: nothing exists at usernames/{lowercased name}. */
  function CheckUsernameAvailable(db: Database, username: string): (available: bool)
    reads db
    ensures available <==> Lower(username) !in db.usernames && (Lower(username) != "" || |db.usernames| == 0)
  {
    Lower(username) !in TakenNames(db.usernames)
  }

  /** The lookup lowercases first, so a name and its lowercase form are equally available. */
  lemma AvailabilityIgnoresCase(db: Database, username: string)
    ensures CheckUsernameAvailable(db, username) == CheckUsernameAvailable(db, Lower(username))
  {
    LowerIsLower(username);
  }

  /** registerWithEmail's normalisation: lowercased, then trimmed. */
  function NormalizeUsername(username: string): (r: string)
    ensures Lower(r) == r
    ensures |r| > 0 ==> !IsSpace(r[0]) && !IsSpace(r[|r| - 1])
  {
    var lowered := Lower(username);
    TrimIsSlice(lowered);
    LowerIsLower(username);
    LowerOfLower(Trim(lowered));
    Trim(lowered)
  }

  /** Normalising twice is normalising once. */
  lemma NormalizeIdempotent(username: string)
    ensures NormalizeUsername(NormalizeUsername(username)) == NormalizeUsername(username)
  {
    var r := NormalizeUsername(username);
    TrimOfTrimmed(r);
  }

  /** Every character of a trimmed string comes from the original. */
  lemma TrimIsSlice(s: string)
    ensures forall i :: 0 <= i < |Trim(s)| ==> Trim(s)[i] in s
    ensures IsLower(s) ==> IsLower(Trim(s))
  {
    var t := TrimStart(s);
    forall i | 0 <= i < |Trim(s)| ensures Trim(s)[i] in s {
      assert Trim(s)[i] == t[i];
      assert t[i] == s[|s| - |t| + i];
    }
  }

  lemma LowerOfLower(s: string)
    requires forall i :: 0 <= i < |s| ==> !('A' <= s[i] <= 'Z')
    ensures Lower(s) == s
  {
  }

  /** The profile registerWithEmail writes. */
  function RegisteredProfile(account: Account, username: string, displayName: string, phone: Option<string>,
                             now: int): (p: Profile)
    ensures p.Profile? && p.uid == account.uid && p.username == Some(NormalizeUsername(username))
    ensures p.role == "user" && !p.isBanned && p.isOnline && p.avatarUrl.None? && p.about == ABOUT_DEFAULT
    ensures p.phone == if phone.Some? then Trim(phone.value) else ""
    ensures p.displayName == Some(Trim(displayName)) && p.email == account.email && p.createdAt == now && p.lastSeen == Some(now)
    ensures p.updatedAt.None?
  {
    Profile(account.uid, account.email, Some(NormalizeUsername(username)), Some(Trim(displayName)),
            if phone.Some? && |Trim(phone.value)| > 0 then Trim(phone.value) else "",
            ABOUT_DEFAULT, None, "user", false, true, Some(now), now, None)
  }

  /**
   * registerWithEmail. The availability check comes first: a name that
   * makes no valid index path fails in `ref`, and a taken name is an
   * error; in both cases no account is created (`created` is false). Otherwise the
   * provider's result decides; on success the profile and the username index
   * entry are written. The profile and index writes themselves are not
   * modelled as failing.
   */
  method RegisterWithEmail(db: Database, username: string, displayName: string, phone: Option<string>,
                           signUp: Result<Account>, now: int) returns (r: Result<Profile>, created: bool)
    modifies db
    ensures db.NonAccount() == old(db.NonAccount())
    ensures !ValidPath(NormalizeUsername(username)) ==>
      && r == Err(InvalidPathError(UsernamePath(NormalizeUsername(username))))
      && !created && db.users == old(db.users) && db.usernames == old(db.usernames)
    ensures ValidPath(NormalizeUsername(username)) && !old(CheckUsernameAvailable(db, NormalizeUsername(username))) ==>
      r == Err(USERNAME_TAKEN) && !created && db.users == old(db.users) && db.usernames == old(db.usernames)
    ensures ValidPath(NormalizeUsername(username)) && old(CheckUsernameAvailable(db, NormalizeUsername(username))) && signUp.Err? ==>
      r == Err(signUp.message) && !created && db.users == old(db.users) && db.usernames == old(db.usernames)
    ensures ValidPath(NormalizeUsername(username)) && old(CheckUsernameAvailable(db, NormalizeUsername(username))) && signUp.Ok? ==>
      && created && r == Ok(RegisteredProfile(signUp.value, username, displayName, phone, now))
      && db.users == old(db.users)[signUp.value.uid := r.value]
      && db.usernames == old(db.usernames)[NormalizeUsername(username) := signUp.value.uid]
      && !CheckUsernameAvailable(db, NormalizeUsername(username))
  {
    var normalized := NormalizeUsername(username);
    if !ValidPath(normalized) {
      return Err(InvalidPathError(UsernamePath(normalized))), false;
    }
    if !CheckUsernameAvailable(db, normalized) {
      return Err(USERNAME_TAKEN), false;
    }
    if signUp.Err? {
      return Err(signUp.message), false;
    }
    var profile := RegisteredProfile(signUp.value, username, displayName, phone, now);
    db.users := db.users[signUp.value.uid := profile];
    db.usernames := db.usernames[normalized := signUp.value.uid];
    r, created := Ok(profile), true;
  }

  /** A lowercase ASCII letter or a decimal digit: the characters a Google username keeps. */
  predicate IsAlnum(c: char)
  {
    'a' <= c <= 'z' || '0' <= c <= '9'
  }

  /** `replace(/[^a-z0-9]/g, "")`. */
  function KeepAlnum(s: string): (r: string)
    ensures |r| <= |s|
    ensures forall i :: 0 <= i < |r| ==> IsAlnum(r[i])
    ensures forall i :: 0 <= i < |s| && IsAlnum(s[i]) ==> s[i] in r
    ensures (forall i :: 0 <= i < |s| ==> IsAlnum(s[i])) ==> r == s
  {
    if |s| == 0 then ""
    else if IsAlnum(s[0]) then [s[0]] + KeepAlnum(s[1..])
    else KeepAlnum(s[1..])
  }

  /** The base of a generated username: the e-mail's local part, lowercased, letters and digits only. */
  function UsernameBase(email: string): (r: string)
    ensures forall i :: 0 <= i < |r| ==> IsAlnum(r[i])
    ensures !Contains(email, "@") ==> r == KeepAlnum(Lower(email))
  {
    KeepAlnum(Lower(Before(email, "@")))
  }

  /** The n-th candidate: the base, then the base followed by 1, 2, 3, ... */
  function Candidate(base: string, n: nat): (r: string)
    ensures n == 0 ==> r == base
    ensures n > 0 ==> |r| > |base| && r[..|base|] == base
  {
    if n == 0 then base else base + NatToString(n)
  }

  /** Distinct counters give distinct candidates. */
  lemma CandidateInjective(base: string, a: nat, b: nat)
    requires Candidate(base, a) == Candidate(base, b)
    ensures a == b
  {
    if a > 0 && b > 0 {
      assert Candidate(base, a)[|base|..] == NatToString(a);
      assert Candidate(base, b)[|base|..] == NatToString(b);
      NatToStringInjective(a, b);
    }
  }

  /** The candidate numbered n is the first one absent from `taken`. */
  ghost predicate FirstFree(taken: map<string, string>, base: string, n: nat)
  {
    Candidate(base, n) !in TakenNames(taken) && forall k: nat :: k < n ==> Candidate(base, k) in TakenNames(taken)
  }

  /** Once anyone has registered, an empty base never yields the empty name: the search moves on to "1", "2", ... */
  lemma EmptyBaseSkipsEmpty(index: map<string, string>, n: nat)
    requires |index| > 0 && FirstFree(index, "", n)
    ensures n > 0 && Candidate("", n) == NatToString(n)
  {
  }

  /** A generated name always makes a valid index path, so loginWithGoogle never meets the invalid-path error. */
  lemma CandidatePathValid(base: string, n: nat)
    requires forall i :: 0 <= i < |base| ==> IsAlnum(base[i])
    ensures ValidPath(UsernamePath(Candidate(base, n)))
  {
    var c := Candidate(base, n);
    forall i | 0 <= i < |c| ensures IsAlnum(c[i]) {
      if i >= |base| {
        assert c[i] == NatToString(n)[i - |base|];
      }
    }
  }

  /** The candidates numbered below n. */
  ghost function CandidatesBelow(base: string, n: nat): (r: set<string>)
    ensures forall k: nat :: k < n ==> Candidate(base, k) in r
  {
    if n == 0 then {} else CandidatesBelow(base, n - 1) + {Candidate(base, n - 1)}
  }

  /** The candidate numbered n is none of those below it. */
  lemma {:induction false} NotBelow(base: string, n: nat, m: nat)
    requires n <= m
    ensures Candidate(base, m) !in CandidatesBelow(base, n)
  {
    if n > 0 {
      NotBelow(base, n - 1, m);
      if Candidate(base, n - 1) == Candidate(base, m) {
        CandidateInjective(base, n - 1, m);
      }
    }
  }

  /** Candidates built from a letters-and-digits base are already lowercase. */
  lemma CandidateLower(base: string, n: nat)
    requires forall i :: 0 <= i < |base| ==> IsAlnum(base[i])
    ensures Lower(Candidate(base, n)) == Candidate(base, n)
  {
    var c := Candidate(base, n);
    forall i | 0 <= i < |c| ensures !('A' <= c[i] <= 'Z') {
      if i >= |base| {
        assert c[i] == NatToString(n)[i - |base|];
      }
    }
    LowerOfLower(c);
  }

  /**
   * The loop of loginWithGoogle: try base, base1, base2, ... until an
   * unused one is found. It stops because each candidate tried is a distinct
   * key of the finite username index.
   */
  method GenerateUsername(db: Database, base: string) returns (username: string)
    requires forall i :: 0 <= i < |base| ==> IsAlnum(base[i])
    ensures exists n: nat :: username == Candidate(base, n) && FirstFree(db.usernames, base, n)
  {
    username := base;
    var counter: nat := 1;
    CandidateLower(base, 0);
    while !CheckUsernameAvailable(db, username)
      invariant username == Candidate(base, counter - 1)
      invariant forall k: nat :: k < counter - 1 ==> Candidate(base, k) in TakenNames(db.usernames)
      invariant CandidatesBelow(base, counter - 1) <= TakenNames(db.usernames)
      decreases |TakenNames(db.usernames)| - |CandidatesBelow(base, counter - 1)|
    {
      CandidateLower(base, counter - 1);
      assert username in TakenNames(db.usernames);
      NotBelow(base, counter - 1, counter - 1);
      SubsetCard(CandidatesBelow(base, counter), TakenNames(db.usernames));
      username := base + NatToString(counter);
      counter := counter + 1;
    }
    CandidateLower(base, counter - 1);
  }

  lemma SubsetCard<T>(a: set<T>, b: set<T>)
    requires a <= b
    ensures |a| <= |b|
  {
    assert b == a + (b - a);
  }

  /** The profile loginWithGoogle writes for a new user. */
  function GoogleProfile(user: GoogleUser, username: string, now: int): (p: Profile)
    ensures p.Profile? && p.uid == user.uid && p.username == Some(username) && p.email == Some(user.email)
    ensures p.displayName == Some(if Truthy(user.displayName) then user.displayName.value else username)
    ensures p.avatarUrl == (if Truthy(user.photoURL) then user.photoURL else None)
    ensures p.phone == (if Truthy(user.phoneNumber) then user.phoneNumber.value else "")
    ensures p.role == "user" && !p.isBanned && p.isOnline && p.about == ABOUT_DEFAULT && p.updatedAt.None?
  {
    Profile(user.uid, Some(user.email), Some(username),
            Some(if Truthy(user.displayName) then user.displayName.value else username),
            if Truthy(user.phoneNumber) then user.phoneNumber.value else "",
            ABOUT_DEFAULT, if Truthy(user.photoURL) then user.photoURL else None,
            "user", false, true, Some(now), now, None)
  }

  /**
   * loginWithGoogle after the popup: a user with a profile is left alone;
   * a new one gets the first free generated username, a profile and the
   * index entry.
   */
  method LoginWithGoogle(db: Database, user: GoogleUser, now: int)
    modifies db
    ensures db.NonAccount() == old(db.NonAccount())
    ensures user.uid in old(db.users) ==> db.users == old(db.users) && db.usernames == old(db.usernames)
    ensures user.uid !in old(db.users) ==>
      exists n: nat ::
        && FirstFree(old(db.usernames), UsernameBase(user.email), n)
        && db.users == old(db.users)[user.uid := GoogleProfile(user, Candidate(UsernameBase(user.email), n), now)]
        && db.usernames == old(db.usernames)[Candidate(UsernameBase(user.email), n) := user.uid]
  {
    if user.uid in db.users {
      return;
    }
    var base := UsernameBase(user.email);
    var username := GenerateUsername(db, base);
    ghost var n: nat :| username == Candidate(base, n) && FirstFree(db.usernames, base, n);
    db.users := db.users[user.uid := GoogleProfile(user, username, now)];
    db.usernames := db.usernames[username := user.uid];
  }
}
