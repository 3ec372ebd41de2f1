/**
 * Passwords, signing keys and sessions (`core/auth.py`, `adapters/state.py`): which tokens still
 * verify after promotions, password changes and resets, wherever the Portal dies between two writes.
 */
module SessionEpochs {
  import opened Prelude
  import opened Outcomes

  /** A signing key. Each generated key is a new number. */
  type SigningKey = nat

  /** `auth.json`: Corrupt is a file that a killed first write left incomplete. */
  datatype AuthFile = Absent | Present(signingKey: SigningKey) | Corrupt

  /** The initial-mode key file. */
  datatype KeyFile = NoKey | Key(key: SigningKey) | Garbled

  datatype Files = Files(auth: AuthFile, initial: KeyFile, nextKey: SigningKey)

  // ----- How a write turns out -----

  /** An atomic replacement or an unlink: it has its effect or not, whether it returns, raises or is killed. */
  datatype Write = Write(effect: bool, end: Ending)

  predicate ProperWrite(w: Write) {
    w.end.Finished? ==> w.effect
  }

  /** An exclusive creation; killed, it may leave nothing, an incomplete file, or the whole file. */
  datatype Creation = Creates | CreationRaises | DiesBefore | DiesWithin | DiesAfter

  function EndOf(c: Creation): Ending {
    if c.Creates? then Finished else if c.CreationRaises? then Failed else Dead
  }

  // ----- The state store -----

  datatype Created = Made(end: Ending) | AlreadyExists

  /** `create_auth` with a freshly generated key. */
  function CreateAuth(f: Files, c: Creation): (Files, Created) {
    var k := f.nextKey;
    var g := f.(nextKey := k + 1);
    if !f.auth.Absent? then (g, AlreadyExists)
    else match c
      case Creates => (g.(auth := Present(k)), Made(Finished))
      case DiesAfter => (g.(auth := Present(k)), Made(Dead))
      case DiesWithin => (g.(auth := Corrupt), Made(Dead))
      case _ => (g, Made(EndOf(c)))
  }

  /** `write_auth` with a freshly generated key. */
  function WriteAuth(f: Files, w: Write): Files {
    f.(nextKey := f.nextKey + 1, auth := if w.effect then Present(f.nextKey) else f.auth)
  }

  /** `read_or_create_initial_signing_key`; the repair of a garbled file replaces it. */
  function InitialKey(f: Files, c: Creation, repair: Write): (Files, Option<SigningKey>, Ending) {
    var k := f.nextKey;
    var g := f.(nextKey := k + 1);
    match f.initial
    case Key(key) => (f, Some(key), Finished)
    case NoKey =>
      (match c
       case Creates => (g.(initial := Key(k)), Some(k), Finished)
       case DiesAfter => (g.(initial := Key(k)), None, Dead)
       case DiesWithin => (g.(initial := Garbled), None, Dead)
       case _ => (g, None, EndOf(c)))
    case Garbled =>
      (g.(initial := if repair.effect then Key(k) else Garbled), if repair.end.Finished? then Some(k) else None, repair.end)
  }

  /** `discard_initial_signing_key`. */
  function DiscardInitialKey(f: Files, w: Write): Files {
    if w.effect then f.(initial := NoKey) else f
  }

  /** `delete_auth`: an existing initial key is rotated before the credentials go. */
  function DeleteAuth(f: Files, rotate: Write, unlink: Write): (Files, Ending) {
    var rotated :=
      if f.initial.NoKey? then f
      else f.(nextKey := f.nextKey + 1, initial := if rotate.effect then Key(f.nextKey) else f.initial);
    if !f.initial.NoKey? && !rotate.end.Finished? then (rotated, rotate.end)
    else (if unlink.effect then rotated.(auth := Absent) else rotated, unlink.end)
  }

  /** The files as the running process changes them. */
  class StateStore {
    var auth: AuthFile
    var initial: KeyFile
    var nextKey: SigningKey

    constructor (f: Files)
      ensures State() == f
    {
      auth, initial, nextKey := f.auth, f.initial, f.nextKey;
    }

    ghost function State(): Files
      reads this
    {
      Files(auth, initial, nextKey)
    }

    method GenerateSigningKey() returns (k: SigningKey)
      modifies `nextKey
      ensures k == old(nextKey) && nextKey == k + 1
    {
      k := nextKey;
      nextKey := nextKey + 1;
    }

    method CreateAuthFile(c: Creation) returns (r: Created)
      modifies this
      ensures (State(), r) == CreateAuth(old(State()), c)
    {
      var k := GenerateSigningKey();
      if !auth.Absent? {
        return AlreadyExists;
      }
      if c.Creates? || c.DiesAfter? {
        auth := Present(k);
      } else if c.DiesWithin? {
        auth := Corrupt;
      }
      r := Made(EndOf(c));
    }

    method ReplaceAuthFile(w: Write) returns (end: Ending)
      modifies this
      ensures State() == WriteAuth(old(State()), w) && end == w.end
    {
      var k := GenerateSigningKey();
      if w.effect {
        auth := Present(k);
      }
      end := w.end;
    }

    method ReadOrCreateInitialKey(c: Creation, repair: Write) returns (key: Option<SigningKey>, end: Ending)
      modifies this
      ensures (State(), key, end) == InitialKey(old(State()), c, repair)
    {
      if initial.Key? {
        return Some(initial.key), Finished;
      }
      var generated := GenerateSigningKey();
      if initial.NoKey? {
        if c.Creates? || c.DiesAfter? {
          initial := Key(generated);
        } else if c.DiesWithin? {
          initial := Garbled;
        }
        return if c.Creates? then Some(generated) else None, EndOf(c);
      }
      if repair.effect {
        initial := Key(generated);
      }
      return if repair.end.Finished? then Some(generated) else None, repair.end;
    }

    method DiscardInitialKeyFile(w: Write) returns (end: Ending)
      modifies `initial
      ensures State() == DiscardInitialKey(old(State()), w) && end == w.end
    {
      if w.effect {
        initial := NoKey;
      }
      end := w.end;
    }

    method DeleteAuthFile(rotate: Write, unlink: Write) returns (end: Ending)
      modifies this
      ensures (State(), end) == DeleteAuth(old(State()), rotate, unlink)
    {
      if !initial.NoKey? {
        var generated := GenerateSigningKey();
        if rotate.effect {
          initial := Key(generated);
        }
        if !rotate.end.Finished? {
          return rotate.end;
        }
      }
      if unlink.effect {
        auth := Absent;
      }
      end := unlink.end;
    }
  }

  // ----- Identity and decisions -----

  /** What a read of the manufacturing identity file gives. */
  datatype IdentityRead = Identity | NoIdentity | Unavailable

  datatype PortalState = OpenSetup | Initial | Set | CorruptState | UnavailableState

  function AuthStateOf(auth: AuthFile, read: IdentityRead): PortalState {
    match auth
    case Corrupt => CorruptState
    case Present(_) => Set
    case Absent => match read case Unavailable => UnavailableState case Identity => Initial case NoIdentity => OpenSetup
  }

  datatype ResetDecision = Allow | DenyNotAvailable | DenyUnavailable | DenyAlreadyInitial

  function DecideReset(s: PortalState, read: IdentityRead): ResetDecision {
    if s.UnavailableState? || read.Unavailable? then DenyUnavailable
    else if s.Initial? then DenyAlreadyInitial
    else if s.OpenSetup? then DenyNotAvailable
    else if read.Identity? then Allow
    else DenyNotAvailable
  }

  /** A reset is allowed exactly on a device that shows its identity and has credentials, readable or not. */
  lemma ResetAllowedExactly(auth: AuthFile, read: IdentityRead)
    ensures DecideReset(AuthStateOf(auth, read), read).Allow? <==> read.Identity? && !auth.Absent?
  {
  }

  // ----- Requests -----

  datatype Mode = InitialMode | FullMode

  /** A session token; `minted` is the epoch it was issued in. */
  datatype Token = Token(key: SigningKey, mode: Mode, minted: nat)

  /**
   * The device. `carries` says whether it has an identity file. `epoch` counts the set-ups,
   * promotions, password changes and resets that completed; no request reads it.
   */
  datatype World = World(files: Files, carries: bool, epoch: nat, tokens: set<Token>)

  /** Requests, each with how its reads and writes turn out. A request that is killed ends there. */
  datatype Request =
    | Setup(read: IdentityRead, create: Creation)
    | Login(read: IdentityRead, correct: bool, initialKey: Creation, repair: Write)
    | Visit(token: Token, read: IdentityRead, initialKey: Creation, repair: Write)
    | Promote(token: Token, read: IdentityRead, create: Creation, discard: Write)
    | Change(token: Token, correct: bool, write: Write)
    | Reset(read: IdentityRead, rotate: Write, unlink: Write)

  predicate ReadFits(w: World, read: IdentityRead) {
    (read.Identity? ==> w.carries) && (read.NoIdentity? ==> !w.carries)
  }

  predicate Possible(w: World, r: Request) {
    match r
    case Setup(read, _) => ReadFits(w, read)
    case Login(read, _, _, repair) => ReadFits(w, read) && ProperWrite(repair)
    case Visit(token, read, _, repair) => token in w.tokens && ReadFits(w, read) && ProperWrite(repair)
    case Promote(token, read, _, discard) => token in w.tokens && ReadFits(w, read) && ProperWrite(discard)
    case Change(token, _, write) => token in w.tokens && ProperWrite(write)
    case Reset(read, rotate, unlink) => ReadFits(w, read) && ProperWrite(rotate) && ProperWrite(unlink)
  }

  /** The session check: which mode, if any, a token is good for. */
  function SessionMode(f: Files, read: IdentityRead, token: Token): Option<Mode> {
    match f.auth
    case Present(k) => if token.key == k then Some(token.mode) else None
    case Absent => if read.Identity? && f.initial == Key(token.key) then Some(token.mode) else None
    case Corrupt => None
  }

  function Next(w: World, r: Request): World
    requires Possible(w, r)
  {
    match r
    case Setup(read, create) =>
      if w.files.auth.Corrupt? || !read.NoIdentity? then w
      else
        var (files, made) := CreateAuth(w.files, create);
        w.(files := files, epoch := if made == Made(Finished) then w.epoch + 1 else w.epoch)
    case Login(read, correct, create, repair) =>
      (match AuthStateOf(w.files.auth, read)
       case Set => if correct then w.(tokens := w.tokens + {Token(w.files.auth.signingKey, FullMode, w.epoch)}) else w
       case Initial =>
         if !correct then w else
         var (files, key, _) := InitialKey(w.files, create, repair);
         w.(files := files,
            tokens := if key.Some? then w.tokens + {Token(key.value, InitialMode, w.epoch)} else w.tokens)
       case _ => w)
    case Visit(_, read, create, repair) =>
      if w.files.auth.Absent? && read.Identity? then w.(files := InitialKey(w.files, create, repair).0) else w
    case Promote(token, read, create, discard) =>
      if SessionMode(w.files, read, token) != Some(InitialMode) || !read.Identity? then w
      else
        var (files, made) := CreateAuth(w.files, create);
        if made != Made(Finished) then w.(files := files)
        else
          var after := w.(files := DiscardInitialKey(files, discard));
          if discard.end.Finished? then
            after.(epoch := w.epoch + 1, tokens := w.tokens + {Token(w.files.nextKey, FullMode, w.epoch + 1)})
          else after
    case Change(token, correct, write) =>
      if !w.files.auth.Present? || SessionMode(w.files, Unavailable, token) != Some(FullMode) || !correct then w
      else
        var after := w.(files := WriteAuth(w.files, write));
        if write.end.Finished? then
          after.(epoch := w.epoch + 1, tokens := w.tokens + {Token(w.files.nextKey, FullMode, w.epoch + 1)})
        else after
    case Reset(read, rotate, unlink) =>
      if !DecideReset(AuthStateOf(w.files.auth, read), read).Allow? then w
      else
        var (files, end) := DeleteAuth(w.files, rotate, unlink);
        w.(files := files, epoch := if end.Finished? then w.epoch + 1 else w.epoch)
  }

  function Factory(carries: bool): World {
    World(Files(Absent, NoKey, 0), carries, 0, {})
  }

  function Run(carries: bool, requests: seq<Request>): Option<World> {
    if requests == [] then Some(Factory(carries))
    else
      var w := Run(carries, requests[..|requests| - 1]);
      if w.None? || !Possible(w.value, requests[|requests| - 1]) then None
      else Some(Next(w.value, requests[|requests| - 1]))
  }

  // ----- The invariant -----

  predicate KeysApart(f: Files) {
    && (f.auth.Present? ==> f.auth.signingKey < f.nextKey)
    && (f.initial.Key? ==> f.initial.key < f.nextKey)
    && (f.auth.Present? && f.initial.Key? ==> f.auth.signingKey != f.initial.key)
  }

  predicate TokenOk(f: Files, epoch: nat, t: Token) {
    && t.key < f.nextKey && t.minted <= epoch
    && (f.auth == Present(t.key) ==> t.minted == epoch && t.mode == FullMode)
    && (f.initial == Key(t.key) ==> t.mode == InitialMode && (f.auth.Absent? ==> t.minted == epoch))
  }

  predicate Inv(w: World) {
    KeysApart(w.files) && forall t | t in w.tokens :: TokenOk(w.files, w.epoch, t)
  }

  lemma SetupKeepsInv(w: World, r: Request)
    requires Inv(w) && Possible(w, r) && r.Setup?
    ensures Inv(Next(w, r))
  {
  }

  lemma VisitKeepsInv(w: World, r: Request)
    requires Inv(w) && Possible(w, r) && (r.Visit? || r.Login?)
    ensures Inv(Next(w, r))
  {
  }

  lemma ChangeKeepsInv(w: World, r: Request)
    requires Inv(w) && Possible(w, r) && (r.Promote? || r.Change?)
    ensures Inv(Next(w, r))
  {
  }

  lemma ResetKeepsInv(w: World, r: Request)
    requires Inv(w) && Possible(w, r) && r.Reset?
    ensures Inv(Next(w, r))
  {
  }

  lemma {:induction false} RunKeepsInv(carries: bool, requests: seq<Request>)
    ensures Run(carries, requests).Some? ==> Inv(Run(carries, requests).value) && Run(carries, requests).value.carries == carries
  {
    if requests != [] && Run(carries, requests).Some? {
      RunKeepsInv(carries, requests[..|requests| - 1]);
      var w, r := Run(carries, requests[..|requests| - 1]).value, requests[|requests| - 1];
      match r {
        case Setup(_, _) => SetupKeepsInv(w, r);
        case Login(_, _, _, _) => VisitKeepsInv(w, r);
        case Visit(_, _, _, _) => VisitKeepsInv(w, r);
        case Promote(_, _, _, _) => ChangeKeepsInv(w, r);
        case Change(_, _, _) => ChangeKeepsInv(w, r);
        case Reset(_, _, _) => ResetKeepsInv(w, r);
      }
    }
  }

  // ----- The theorems -----

  /**
   * Session epochs. After any requests, each of which may have been killed between any two of its
   * writes, a token that verifies was issued after the last promotion, change or reset that completed.
   */
  lemma {:induction false} VerifyingTokensAreCurrent(carries: bool, requests: seq<Request>, token: Token, read: IdentityRead)
    requires Run(carries, requests).Some? && token in Run(carries, requests).value.tokens
    requires SessionMode(Run(carries, requests).value.files, read, token).Some?
    ensures token.minted == Run(carries, requests).value.epoch
  {
    RunKeepsInv(carries, requests);
  }

  /** A session is full exactly when its token was signed with the key stored beside the password. */
  lemma {:induction false} FullSessionsNeedThePassword(carries: bool, requests: seq<Request>, token: Token, read: IdentityRead)
    requires Run(carries, requests).Some? && token in Run(carries, requests).value.tokens
    ensures var f := Run(carries, requests).value.files;
            SessionMode(f, read, token) == Some(FullMode) <==> f.auth == Present(token.key)
  {
    RunKeepsInv(carries, requests);
  }

  /** A promotion, change or reset that completes revokes every token there was. */
  lemma {:induction false} CompletionRevokesAll(carries: bool, requests: seq<Request>, r: Request, token: Token, read: IdentityRead)
    requires Run(carries, requests).Some? && Possible(Run(carries, requests).value, r)
    requires token in Run(carries, requests).value.tokens
    requires Next(Run(carries, requests).value, r).epoch > Run(carries, requests).value.epoch
    ensures SessionMode(Next(Run(carries, requests).value, r).files, read, token).None?
  {
    RunKeepsInv(carries, requests);
    var w := Run(carries, requests).value;
    RunKeepsInv(carries, requests + [r]) by {
      assert (requests + [r])[..|requests|] == requests;
    }
    assert TokenOk(w.files, w.epoch, token);
    assert Run(carries, requests + [r]) == Some(Next(w, r)) by {
      assert (requests + [r])[..|requests|] == requests;
    }
    assert token in Next(w, r).tokens;
  }

  /** A device without an identity file never loses its credentials to any request: it stays out of open set-up. */
  lemma {:induction false} NoIdentityNeverReopens(requests: seq<Request>, later: seq<Request>)
    requires Run(false, requests + later).Some?
    ensures Run(false, requests).Some?
    ensures !Run(false, requests).value.files.auth.Absent? ==>
              forall read | ReadFits(Factory(false), read) ::
                !AuthStateOf(Run(false, requests + later).value.files.auth, read).OpenSetup?
                && (Run(false, requests).value.files.auth.Present? ==>
                      AuthStateOf(Run(false, requests + later).value.files.auth, read).Set?)
  {
    if later == [] {
      assert requests + later == requests;
    } else {
      var all := requests + later;
      assert all[..|all| - 1] == requests + later[..|later| - 1];
      NoIdentityNeverReopens(requests, later[..|later| - 1]);
      RunKeepsInv(false, requests + later[..|later| - 1]);
      assert ReadFits(Factory(false), NoIdentity);
    }
  }
}
