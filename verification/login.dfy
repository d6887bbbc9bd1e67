/** Account registration for the command line (two1/lib/server/login.py).

    `create_username` binds the machine-auth key to a 21 account: it submits
    candidate usernames to the account service until the service answers 200
    (already bound) or 201 (created); any other status discards the candidate
    and the user is asked for another.  The collaborators are scripted here:
    the user's answers to the prompt are a sequence of names, the service's
    answers a sequence of responses.  When a script runs out before the loop
    ends, the run is reported as stalled: the interactive session did not
    finish within the script. */
module Login {
  import opened CliConfig

  /** One answer of `account_post`: an HTTP status, or a transport exception. */
  datatype Response = Status(code: int) | ConnectionFailure | TimeoutFailure

  /** The exceptions that can leave `create_username`. */
  datatype Exception =
    | AuthNotInitialized      // the ValueError raised when machine auth is missing
    | ServerConnectionError
    | ServerTimeout

  /** How a call ends: a returned value, a raised exception, or a script ran out. */
  datatype Completion<T> = Returned(value: T) | Threw(exc: Exception) | Stalled

  /** The arguments of one `account_post` call. */
  datatype Post = Post(username: string, payoutAddress: string)

  /** How the negotiation loop ends. */
  datatype End =
    | Bound(username: string)     // status 200
    | Created(username: string)   // status 201
    | Aborted(exc: Exception)     // a transport exception escaped the loop
    | OutOfScript

  /** The loop's end together with every post it made and how often it prompted. */
  datatype Loop = Loop(end: End, posts: seq<Post>, prompts: nat)

  /** A whole call: its result, its posts and prompts, and the configuration after it. */
  datatype Run<T> = Run(result: Completion<T>, posts: seq<Post>, prompts: nat, config: ConfigState)

  /** A loop run preceded by posts and prompts already made. */
  function Then(posts: seq<Post>, prompts: nat, rest: Loop): Loop
  {
    Loop(rest.end, posts + rest.posts, prompts + rest.prompts)
  }

  /** The names the loop submits, in order, when every response asks for a
      retry: the initial candidate if it is a non-empty string, then each
      prompted name. */
  function Queue(candidate: Option<string>, names: seq<string>): seq<string>
  {
    if Truthy(candidate) then [candidate.value] + names else names
  }

  /** A status that neither ends the loop nor creates the account. */
  predicate Retry(r: Response)
  {
    r.Status? && r.code != 200 && r.code != 201
  }

  /** How a response that is not a retry ends the loop for the name just posted. */
  function Stop(name: string, response: Response): End
    requires !Retry(response)
  {
    match response
    case ConnectionFailure => Aborted(ServerConnectionError)
    case TimeoutFailure => Aborted(ServerTimeout)
    case Status(code) => if code == 200 then Bound(name) else Created(name)
  }

  /** The `while True` loop of `create_username`, from a candidate (None or ""
      means "prompt first"), the names the user will type, the service's
      responses and the payout address read before the loop. */
  function Negotiate(candidate: Option<string>, names: seq<string>, responses: seq<Response>, payout: string): Loop
    decreases |responses|
  {
    if !Truthy(candidate) && names == [] then Loop(OutOfScript, [], 0)
    else
      var name := if Truthy(candidate) then candidate.value else names[0];
      var left := if Truthy(candidate) then names else names[1..];
      var asked := if Truthy(candidate) then 0 else 1;
      if responses == [] then Loop(OutOfScript, [], asked)
      else if Retry(responses[0]) then Then([Post(name, payout)], asked, Negotiate(None, left, responses[1..], payout))
      else Loop(Stop(name, responses[0]), [Post(name, payout)], asked)
  }

  /** The configuration after a 201: `username` and `mining_auth_pubkey` are
      written, then saved once. */
  function Persist(cfg: ConfigState, username: string, pubkey: string): (c: ConfigState)
    ensures Lookup(c.settings, UsernameKey) == Some(username)
    ensures Lookup(c.settings, PubkeyKey) == Some(pubkey)
    ensures forall k :: k != UsernameKey && k != PubkeyKey ==> Lookup(c.settings, k) == Lookup(cfg.settings, k)
    ensures c.saved == c.settings && c.saves == cfg.saves + 1
    ensures c.machineAuth == cfg.machineAuth && c.walletAddress == cfg.walletAddress
  {
    var s := cfg.settings[UsernameKey := username][PubkeyKey := pubkey];
    cfg.(settings := s, saved := s, saves := cfg.saves + 1)
  }

  /** What `create_username` makes of the loop's end: the value returned or
      the exception raised, and the configuration written on creation. */
  function Finish(cfg: ConfigState, pubkey: string, loop: Loop): Run<string>
  {
    match loop.end
    case Bound(name) => Run(Returned(name), loop.posts, loop.prompts, cfg)
    case Created(name) => Run(Returned(name), loop.posts, loop.prompts, Persist(cfg, name, pubkey))
    case Aborted(e) => Run(Threw(e), loop.posts, loop.prompts, cfg)
    case OutOfScript => Run(Stalled, loop.posts, loop.prompts, cfg)
  }

  /** `create_username(config, username)`: the auth check, then the loop, then
      the configuration update on creation. */
  function CreateUsernameSpec(cfg: ConfigState, username: Option<string>, names: seq<string>,
                              responses: seq<Response>, encode: Bytes -> string): (r: Run<string>)
    ensures cfg.machineAuth.None? ==> r == Run(Threw(AuthNotInitialized), [], 0, cfg)
    ensures r.config == cfg || (cfg.machineAuth.Some? && r.result.Returned?
                                && r.config == Persist(cfg, r.result.value, encode(cfg.machineAuth.value)))
  {
    match cfg.machineAuth
    case None => Run(Threw(AuthNotInitialized), [], 0, cfg)
    case Some(key) => Finish(cfg, encode(key), Negotiate(username, names, responses, cfg.walletAddress))
  }

  /** `create_username`: the prompting and posting loop over the scripted
      collaborators, updating `config` in place on creation. */
  method CreateUsername(config: Config, username: Option<string>, names: seq<string>,
                        responses: seq<Response>, encode: Bytes -> string)
    returns (result: Completion<string>, posts: seq<Post>, prompts: nat)
    modifies config
    ensures Run(result, posts, prompts, config.State())
         == CreateUsernameSpec(old(config.State()), username, names, responses, encode)
  {
    if config.machineAuth.None? {
      return Threw(AuthNotInitialized), [], 0;
    }
    var pubkey := encode(config.machineAuth.value);
    var payout := config.walletAddress;
    ghost var goal := Negotiate(username, names, responses, payout);
    var candidate := username;
    var i, j := 0, 0;  // how many names have been prompted for, how many responses received
    posts, prompts := [], 0;
    while true
      invariant i <= |names| && j <= |responses|
      invariant config.State() == old(config.State())
      invariant Then(posts, prompts, Negotiate(candidate, names[i..], responses[j..], payout)) == goal
      decreases |responses| - j
    {
      ghost var i0, j0, done, asked := i, j, posts, prompts;
      var name: string;
      if Truthy(candidate) {
        name := candidate.value;
      } else {
        if i == |names| {
          return Stalled, posts, prompts;
        }
        name := names[i];
        i, prompts := i + 1, prompts + 1;
      }
      if j == |responses| {
        return Stalled, posts, prompts;
      }
      var response := responses[j];
      j := j + 1;
      posts := posts + [Post(name, payout)];
      if !Retry(response) {
        StopUnfold(candidate, names[i0..], responses[j0..], payout);
        assert goal == Loop(Stop(name, response), posts, prompts);
      }
      match response
      case ConnectionFailure =>
        return Threw(ServerConnectionError), posts, prompts;
      case TimeoutFailure =>
        return Threw(ServerTimeout), posts, prompts;
      case Status(code) =>
        if code == 200 {
          return Returned(name), posts, prompts;
        } else if code == 201 {
          config.UpdateKey(UsernameKey, name);
          config.UpdateKey(PubkeyKey, pubkey);
          config.Save();
          return Returned(name), posts, prompts;
        } else {
          assert names[i..] == Queue(candidate, names[i0..])[1..];
          assert responses[j..] == responses[j0..][1..];
          RetryUnfold(candidate, names[i0..], responses[j0..], payout);
          ThenThen(done, asked, [Post(name, payout)], prompts - asked,
                   Negotiate(None, names[i..], responses[j..], payout));
          candidate := None;
        }
    }
  }

  /** One iteration that ends the loop: the head of the queue is posted and
      the response decides the end. */
  lemma StopUnfold(candidate: Option<string>, names: seq<string>, responses: seq<Response>, payout: string)
    requires Truthy(candidate) || names != []
    requires responses != [] && !Retry(responses[0])
    ensures Negotiate(candidate, names, responses, payout)
         == Loop(Stop(Queue(candidate, names)[0], responses[0]), [Post(Queue(candidate, names)[0], payout)],
                 if Truthy(candidate) then 0 else 1)
  {
  }

  /** Prefixing a run twice is prefixing it once with both. */
  lemma ThenThen(p1: seq<Post>, n1: nat, p2: seq<Post>, n2: nat, rest: Loop)
    ensures Then(p1, n1, Then(p2, n2, rest)) == Then(p1 + p2, n1 + n2, rest)
  {
  }

  /** One retried iteration: the head of the queue is posted (after a prompt
      when there was no usable candidate) and the loop goes on from no
      candidate. */
  lemma RetryUnfold(candidate: Option<string>, names: seq<string>, responses: seq<Response>, payout: string)
    requires Truthy(candidate) || names != []
    requires responses != [] && Retry(responses[0])
    ensures Negotiate(candidate, names, responses, payout)
         == Then([Post(Queue(candidate, names)[0], payout)], if Truthy(candidate) then 0 else 1,
                 Negotiate(None, Queue(candidate, names)[1..], responses[1..], payout))
  {
  }

  /** `create_twentyone_account(config)`: `create_username` from no candidate,
      then the configuration's `username`; connection and timeout errors are
      caught and give None, the missing-auth error is not caught. */
  function CreateAccount(cfg: ConfigState, names: seq<string>, responses: seq<Response>,
                         encode: Bytes -> string): Run<Option<string>>
  {
    var run := CreateUsernameSpec(cfg, None, names, responses, encode);
    var result := match run.result
      case Returned(_) => Returned(Lookup(run.config.settings, UsernameKey))
      case Threw(AuthNotInitialized) => Threw(AuthNotInitialized)
      case Threw(_) => Returned(None)
      case Stalled => Stalled;
    Run(result, run.posts, run.prompts, run.config)
  }

  /** `create_twentyone_account` over a configuration object. */
  method CreateTwentyOneAccount(config: Config, names: seq<string>, responses: seq<Response>,
                                encode: Bytes -> string)
    returns (result: Completion<Option<string>>, posts: seq<Post>, prompts: nat)
    modifies config
    ensures Run(result, posts, prompts, config.State())
         == CreateAccount(old(config.State()), names, responses, encode)
  {
    var created;
    created, posts, prompts := CreateUsername(config, None, names, responses, encode);
    match created
    case Returned(_) =>
      result := Returned(Lookup(config.settings, UsernameKey));
    case Threw(AuthNotInitialized) =>
      result := Threw(AuthNotInitialized);
    case Threw(_) =>
      result := Returned(None);
    case Stalled =>
      result := Stalled;
  }

  /** `check_setup_twentyone_account(config)`: nothing to do when
      `mining_auth_pubkey` is set; otherwise create the account, and return
      False (Some(false)) only when that yields no name.  Every other path
      returns None. */
  function CheckSetup(cfg: ConfigState, names: seq<string>, responses: seq<Response>,
                      encode: Bytes -> string): Run<Option<bool>>
  {
    if Truthy(Lookup(cfg.settings, PubkeyKey)) then Run(Returned(None), [], 0, cfg)
    else
      var run := CreateAccount(cfg, names, responses, encode);
      var result := match run.result
        case Returned(name) => Returned(if Truthy(name) then None else Some(false))
        case Threw(e) => Threw(e)
        case Stalled => Stalled;
      Run(result, run.posts, run.prompts, run.config)
  }

  /** `check_setup_twentyone_account` over a configuration object. */
  method CheckSetupTwentyOneAccount(config: Config, names: seq<string>, responses: seq<Response>,
                                    encode: Bytes -> string)
    returns (result: Completion<Option<bool>>, posts: seq<Post>, prompts: nat)
    modifies config
    ensures Run(result, posts, prompts, config.State())
         == CheckSetup(old(config.State()), names, responses, encode)
  {
    if Truthy(Lookup(config.settings, PubkeyKey)) {
      return Returned(None), [], 0;
    }
    var username;
    username, posts, prompts := CreateTwentyOneAccount(config, names, responses, encode);
    match username
    case Returned(name) =>
      result := Returned(if Truthy(name) then None else Some(false));
    case Threw(e) =>
      result := Threw(e);
    case Stalled =>
      result := Stalled;
  }

  // Properties of the negotiation loop

  /** Every post carries the payout address read before the loop, and the
      names posted are, in order, the initial candidate when it is a
      non-empty string and then the prompted names: a rejected candidate is
      never posted again without a prompt. */
  lemma {:induction false} PostsFollowQueue(candidate: Option<string>, names: seq<string>,
                                            responses: seq<Response>, payout: string)
    ensures |Negotiate(candidate, names, responses, payout).posts| <= |Queue(candidate, names)|
    ensures |Negotiate(candidate, names, responses, payout).posts| <= |responses|
    ensures forall k :: 0 <= k < |Negotiate(candidate, names, responses, payout).posts| ==>
              Negotiate(candidate, names, responses, payout).posts[k] == Post(Queue(candidate, names)[k], payout)
    decreases |responses|
  {
    var l := Negotiate(candidate, names, responses, payout);
    if !(!Truthy(candidate) && names == []) && responses != [] && Retry(responses[0]) {
      var left := if Truthy(candidate) then names else names[1..];
      PostsFollowQueue(None, left, responses[1..], payout);
      assert Queue(candidate, names) == [Queue(candidate, names)[0]] + Queue(None, left);
    }
  }

  /** The number of prompts: one per post, less one when the initial candidate
      was a non-empty string.  A run that ran out of responses may have one
      answered prompt whose name was never posted; a prompt with no name left
      to answer it is not counted. */
  lemma {:induction false} PromptCount(candidate: Option<string>, names: seq<string>,
                                       responses: seq<Response>, payout: string)
    ensures Negotiate(candidate, names, responses, payout).prompts <= |names|
    ensures Negotiate(candidate, names, responses, payout).end != OutOfScript ==>
              Negotiate(candidate, names, responses, payout).prompts + |Queue(candidate, names)| - |names|
              == |Negotiate(candidate, names, responses, payout).posts|
    ensures Negotiate(candidate, names, responses, payout).prompts + |Queue(candidate, names)| - |names|
              <= |Negotiate(candidate, names, responses, payout).posts| + 1
    decreases |responses|
  {
    if !(!Truthy(candidate) && names == []) && responses != [] && Retry(responses[0]) {
      var left := if Truthy(candidate) then names else names[1..];
      PromptCount(None, left, responses[1..], payout);
    }
  }

  /** How the loop ends is decided by the responses: every response but the
      last one received asked for a retry, and the last one is 200 (bound to
      the name just posted), 201 (created under it) or a transport failure;
      a run with no terminal response ran out of responses or of names. */
  lemma {:induction false} EndMatchesResponses(candidate: Option<string>, names: seq<string>,
                                               responses: seq<Response>, payout: string)
    ensures |Negotiate(candidate, names, responses, payout).posts| <= |responses|
    ensures forall k :: 0 <= k < |Negotiate(candidate, names, responses, payout).posts| - 1 ==> Retry(responses[k])
    ensures Negotiate(candidate, names, responses, payout).end != OutOfScript ==>
              Negotiate(candidate, names, responses, payout).posts != []
    ensures Negotiate(candidate, names, responses, payout).end.Bound? ==>
              var l := Negotiate(candidate, names, responses, payout);
              responses[|l.posts| - 1] == Status(200) && l.end.username == l.posts[|l.posts| - 1].username
    ensures Negotiate(candidate, names, responses, payout).end.Created? ==>
              var l := Negotiate(candidate, names, responses, payout);
              responses[|l.posts| - 1] == Status(201) && l.end.username == l.posts[|l.posts| - 1].username
    ensures Negotiate(candidate, names, responses, payout).end == Aborted(ServerConnectionError) ==>
              responses[|Negotiate(candidate, names, responses, payout).posts| - 1] == ConnectionFailure
    ensures Negotiate(candidate, names, responses, payout).end == Aborted(ServerTimeout) ==>
              responses[|Negotiate(candidate, names, responses, payout).posts| - 1] == TimeoutFailure
    ensures Negotiate(candidate, names, responses, payout).end.Aborted? ==>
              Negotiate(candidate, names, responses, payout).end.exc != AuthNotInitialized
    ensures Negotiate(candidate, names, responses, payout).end == OutOfScript ==>
              var l := Negotiate(candidate, names, responses, payout);
              (forall k :: 0 <= k < |l.posts| ==> Retry(responses[k]))
              && (|l.posts| == |responses| || l.prompts == |names|)
    decreases |responses|
  {
    if !(!Truthy(candidate) && names == []) && responses != [] && Retry(responses[0]) {
      var left := if Truthy(candidate) then names else names[1..];
      EndMatchesResponses(None, left, responses[1..], payout);
      PromptCount(None, left, responses[1..], payout);
      var rest := Negotiate(None, left, responses[1..], payout);
      var l := Negotiate(candidate, names, responses, payout);
      assert l.posts[1..] == rest.posts;
      forall k | 1 <= k < |l.posts| ensures responses[k] == responses[1..][k - 1] { }
    }
  }

  // Properties of create_username, create_twentyone_account and check_setup_twentyone_account

  /** A non-empty initial username is posted first, without a prompt; a
      candidate that is None or "" is replaced by a prompted name before
      anything is posted. */
  lemma FirstPostAndPrompt(cfg: ConfigState, username: Option<string>, names: seq<string>,
                           responses: seq<Response>, encode: Bytes -> string)
    requires cfg.machineAuth.Some? && responses != []
    requires Truthy(username) || names != []
    ensures var r := CreateUsernameSpec(cfg, username, names, responses, encode);
      r.posts != []
      && r.posts[0] == Post(if Truthy(username) then username.value else names[0], cfg.walletAddress)
      && (Truthy(username) && !Retry(responses[0]) ==> r.prompts == 0)
      && (!Truthy(username) ==> r.prompts >= 1)
  {
  }

  /** What `create_username` does once auth is initialised: every post carries
      the wallet address; it returns exactly when the last response received
      is 200 or 201, and then returns the name just posted; the configuration
      changes exactly when that response is 201, and then by `Persist`. */
  lemma CreateUsernameOutcome(cfg: ConfigState, username: Option<string>, names: seq<string>,
                              responses: seq<Response>, encode: Bytes -> string)
    requires cfg.machineAuth.Some?
    ensures var r := CreateUsernameSpec(cfg, username, names, responses, encode);
      && |r.posts| <= |responses|
      && (forall k :: 0 <= k < |r.posts| ==> r.posts[k].payoutAddress == cfg.walletAddress)
      && (r.result.Returned? <==> r.posts != [] && responses[|r.posts| - 1] in {Status(200), Status(201)})
      && (r.result.Returned? ==> r.result.value == r.posts[|r.posts| - 1].username)
      && (r.result.Threw? ==> r.posts != [] && r.result.exc != AuthNotInitialized
                              && !responses[|r.posts| - 1].Status?)
      && (r.result == Stalled ==> forall k :: 0 <= k < |r.posts| ==> Retry(responses[k]))
      && (r.config != cfg <==> r.posts != [] && responses[|r.posts| - 1] == Status(201))
      && (r.config != cfg ==> r.config == Persist(cfg, r.result.value, encode(cfg.machineAuth.value)))
  {
    var payout := cfg.walletAddress;
    PostsFollowQueue(username, names, responses, payout);
    EndMatchesResponses(username, names, responses, payout);
    PromptCount(username, names, responses, payout);
    var l := Negotiate(username, names, responses, payout);
    var r := CreateUsernameSpec(cfg, username, names, responses, encode);
    if l.end.Created? {
      assert r.config.saves == cfg.saves + 1;
    }
    if l.end == OutOfScript && l.posts != [] {
      assert Retry(responses[|l.posts| - 1]);
    }
  }

  /** Two conflicts then a creation, from no candidate: three prompts, three
      posts of the three prompted names, the third name returned, and the
      configuration written and saved once. */
  lemma ConflictConflictCreated(cfg: ConfigState, names: seq<string>, encode: Bytes -> string)
    requires cfg.machineAuth.Some? && |names| >= 3
    ensures var r := CreateUsernameSpec(cfg, None, names, [Status(400), Status(400), Status(201)], encode);
      && r.posts == [Post(names[0], cfg.walletAddress), Post(names[1], cfg.walletAddress),
                     Post(names[2], cfg.walletAddress)]
      && r.prompts == 3
      && r.result == Returned(names[2])
      && r.config == Persist(cfg, names[2], encode(cfg.machineAuth.value))
      && r.config.saves == cfg.saves + 1
  {
  }

  /** `create_twentyone_account`: missing auth raises before any post or
      prompt; connection and timeout errors never escape and give None with
      the configuration untouched; after a 200 it returns the username the
      configuration already held, after a 201 the name just created. */
  lemma CreateAccountOutcome(cfg: ConfigState, names: seq<string>, responses: seq<Response>,
                             encode: Bytes -> string)
    ensures cfg.machineAuth.None? ==>
              CreateAccount(cfg, names, responses, encode) == Run(Threw(AuthNotInitialized), [], 0, cfg)
    ensures var r := CreateAccount(cfg, names, responses, encode);
      && |r.posts| <= |responses|
      && (r.result.Threw? ==> r.result == Threw(AuthNotInitialized) && r.posts == [] && r.prompts == 0)
      && (r.posts != [] && !responses[|r.posts| - 1].Status? ==> r.result == Returned(None) && r.config == cfg)
      && (r.posts != [] && responses[|r.posts| - 1] == Status(200) ==>
            r.result == Returned(Lookup(cfg.settings, UsernameKey)) && r.config == cfg)
      && (r.posts != [] && responses[|r.posts| - 1] == Status(201) ==>
            r.result == Returned(Some(r.posts[|r.posts| - 1].username)))
  {
    if cfg.machineAuth.Some? {
      CreateUsernameOutcome(cfg, None, names, responses, encode);
    }
  }

  /** `create_twentyone_account` never submits the configuration's
      `username`: it calls `create_username` without a candidate, so post k
      carries the k-th prompted name, and any post comes after a prompt. */
  lemma AccountPostsPromptedNames(cfg: ConfigState, names: seq<string>, responses: seq<Response>,
                                  encode: Bytes -> string)
    requires cfg.machineAuth.Some?
    ensures var r := CreateAccount(cfg, names, responses, encode);
      && |r.posts| <= |names|
      && (forall k :: 0 <= k < |r.posts| ==> r.posts[k] == Post(names[k], cfg.walletAddress))
      && (r.posts != [] ==> r.prompts >= 1)
      && (names != [] && responses != [] ==> r.posts != [] && r.posts[0].username == names[0])
  {
    PostsFollowQueue(None, names, responses, cfg.walletAddress);
    if names != [] && responses != [] {
      FirstPostAndPrompt(cfg, None, names, responses, encode);
    }
  }

  /** `check_setup_twentyone_account` never returns True; with
      `mining_auth_pubkey` set it does nothing at all; otherwise it does what
      account creation does and returns False exactly when that returned a
      falsy name, None when it returned a non-empty one. */
  lemma CheckSetupOutcome(cfg: ConfigState, names: seq<string>, responses: seq<Response>,
                          encode: Bytes -> string)
    ensures CheckSetup(cfg, names, responses, encode).result != Returned(Some(true))
    ensures Truthy(Lookup(cfg.settings, PubkeyKey)) ==>
              CheckSetup(cfg, names, responses, encode) == Run(Returned(None), [], 0, cfg)
    ensures !Truthy(Lookup(cfg.settings, PubkeyKey)) ==>
      var r := CheckSetup(cfg, names, responses, encode);
      var a := CreateAccount(cfg, names, responses, encode);
      && r.posts == a.posts && r.prompts == a.prompts && r.config == a.config
      && (r.result == Returned(Some(false)) <==> a.result.Returned? && !Truthy(a.result.value))
      && (r.result == Returned(None) <==> a.result.Returned? && Truthy(a.result.value))
      && (r.result.Threw? <==> a.result.Threw?)
  {
  }

  /** A 200 on the first post leaves the configuration as it was; when it held
      no username, check_setup_twentyone_account then reports failure although
      the service considers the key bound. */
  lemma BoundWithoutLocalUsername(cfg: ConfigState, names: seq<string>, encode: Bytes -> string)
    requires cfg.machineAuth.Some? && names != []
    requires !Truthy(Lookup(cfg.settings, PubkeyKey)) && !Truthy(Lookup(cfg.settings, UsernameKey))
    ensures var r := CheckSetup(cfg, names, [Status(200)], encode);
      r == Run(Returned(Some(false)), [Post(names[0], cfg.walletAddress)], 1, cfg)
  {
  }

  /** With `mining_auth_pubkey` unset and a 201 for a non-empty name, set-up
      succeeds (returns None) and leaves both `username` and
      `mining_auth_pubkey` written and saved. */
  lemma CheckSetupCreates(cfg: ConfigState, names: seq<string>, encode: Bytes -> string)
    requires cfg.machineAuth.Some? && names != [] && names[0] != ""
    requires !Truthy(Lookup(cfg.settings, PubkeyKey))
    ensures var r := CheckSetup(cfg, names, [Status(201)], encode);
      && r.result == Returned(None)
      && Lookup(r.config.settings, UsernameKey) == Some(names[0])
      && Lookup(r.config.settings, PubkeyKey) == Some(encode(cfg.machineAuth.value))
      && r.config.saved == r.config.settings && r.config.saves == cfg.saves + 1
  {
  }
}
