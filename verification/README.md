# Account registration and e-mail parameter of the 21 command line

This project models `two1/lib/server/login.py`, the part of the 21 command line
that binds a machine's auth key to a 21 account, together with the e-mail
parameter type the same file defines.

- `email.dfy`, module `EmailParam`, models `EmailAddress.convert`. The function
  accepts a value exactly when `re.match(r"[^@]+@[^@]+\.[^@]+", value)`
  succeeds, and then returns the value unchanged. `re.match` anchors only at the
  start. So the check is an existential over split points: some prefix is
  `local@domain.tld`, with three non-empty runs that contain no `@`
  (`HasEmailPrefix`). An executable matcher (`Matches`) finds the first `@` and
  the second `@` and looks for a `.` strictly inside the domain part. It is
  proved equal to that characterisation in both directions.
- `config.dfy`, module `CliConfig`, models the configuration object. It is a
  class with a key-to-value map of settings, where an absent key reads as
  Python's None. It also holds the snapshot written by `save` and a save
  counter. `machine_auth` is the compressed public-key bytes, or None. The
  wallet's current address is a single stored value.
- `login.dfy`, module `Login`, models the registration flow.
  - `CreateUsername` is the `while True` loop of `create_username`, written as
    a method with a loop that updates the configuration object in place. It is
    proved equal to the specification function `CreateUsernameSpec` (built on
    `Negotiate`) on every input.
  - `CreateTwentyOneAccount` and `CheckSetupTwentyOneAccount` are the two
    wrappers. Each is proved equal to its own specification function
    (`CreateAccount`, `CheckSetup`).
  - The lemmas state what these promise: which names are posted and in which
    order, how many prompts happen, how the last response decides the end,
    which configuration keys change, and what each wrapper returns.

The collaborators are scripted:
- the user's answers to the username prompt are a sequence of names;
- the answers of `account_post` are a sequence of `Response`s, each an HTTP
  status or a connection or timeout failure;
- the base64 text of the key is a function parameter `encode`.

The loop has no bound in the source. If either script runs out before the loop
ends, the run ends as `Stalled` (`OutOfScript` inside the loop): the
interactive session did not finish within the script.

Behaviour of the code that is easy to misread:
- `check_setup_twentyone_account` returns None on both the fast path and the
  success path. It returns False only when account creation yields a falsy
  name. It never returns True (`CheckSetupOutcome`).
- The comment at two1/lib/server/login.py:31 speaks of an account "set up
  with a proper username". The test on line 32, however, is on
  `mining_auth_pubkey`, not on `username`.
- A missing machine auth raises `ValueError` (`AuthNotInitialized`). This
  happens before any prompt or post. `create_twentyone_account` catches only
  connection and timeout errors, so this error propagates out of both wrappers.
- The docstring of `create_twentyone_account` (login.py:41-42) says the
  account is created with the username that exists in the configuration. Line
  51, however, calls `create_username(config)` without a username. So the
  first post is always a prompted name, and the configuration's `username` is
  never submitted (`AccountPostsPromptedNames`).
- The docstring of `create_twentyone_account` (login.py:47-48) promises "the
  username that was created, None otherwise". After a 200, line 52 instead
  returns the configuration's earlier `username`, not the name just posted, and
  no key is written on this path. So when the configuration held no username,
  `check_setup_twentyone_account` reports failure even though the service
  considers the key bound (`BoundWithoutLocalUsername`).
- Any status other than 200, 201 and 400 is treated like 400: the candidate is
  discarded and the user is prompted again.
- The loop posts a prompted name as it was typed, with no re-check. The name
  script may contain `""`, and the model then posts `""`. This generalises the
  prompt. In the running program `click.prompt` without a default asks again on
  empty input, so `""` never reaches `account_post`. Every property proved here
  holds for any name script, so it holds for the names click can return.

## Model

| member | source | states |
|---|---|---|
| `EmailParam.Convert` | two1/lib/server/login.py:18-21 | returns the value unchanged iff some prefix matches `[^@]+@[^@]+\.[^@]+`, otherwise the bad-parameter failure |
| `EmailParam.MatchesIffEmailPrefix` | two1/lib/server/login.py:19 | the first-`@` / second-`@` matcher accepts exactly the values with a `local@domain.tld` prefix (both directions) |
| `EmailParam.AcceptedPrefixExtends` | two1/lib/server/login.py:19 | the match is anchored at the start only: appending anything, further `@` included, to an accepted value keeps it accepted |
| `EmailParam.LeadingAtRefused` | two1/lib/server/login.py:19-20 | a value starting with `@` (empty local part) is refused |
| `EmailParam.NoAtRefused` | two1/lib/server/login.py:19-20 | a value with no `@` is refused |
| `EmailParam.Examples` | two1/lib/server/login.py:19-21 | `a@b.c` and `a@b.c@d` are accepted; `a@b@c.d` and `a@.c` are refused |
| `CliConfig.Config.UpdateKey` | two1/lib/server/login.py:101-102 | `update_key` sets exactly one setting and leaves the saved snapshot alone |
| `CliConfig.Config.Save` | two1/lib/server/login.py:103 | `save` makes the saved snapshot equal to the current settings and counts one save |
| `Login.Persist` | two1/lib/server/login.py:101-103 | the 201 update writes `username` and `mining_auth_pubkey` (both present afterwards), leaves every other key as it was, and saves once |
| `Login.CreateUsernameSpec` | two1/lib/server/login.py:80-110 | missing auth raises with no post, no prompt and no config change; otherwise the config is either unchanged or exactly the 201 update for the returned name |
| `Login.CreateUsername` | two1/lib/server/login.py:61-110 | the loop method's results, its posts, its prompt count and the new config state all equal those of `CreateUsernameSpec` |
| `Login.PostsFollowQueue` | two1/lib/server/login.py:89-109 | post k carries the name at position k of (non-empty initial candidate, then prompted names), so a rejected candidate is never reposted without a prompt; every post uses the payout address read once before the loop; there are at most as many posts as responses |
| `Login.PromptCount` | two1/lib/server/login.py:92-96 | prompts equal posts, or posts minus one when the initial candidate was non-empty; a run cut short may have one answered prompt whose name was never posted |
| `Login.EndMatchesResponses` | two1/lib/server/login.py:96-109 | every response before the last one received is a retry status; the loop ends Bound on a 200 and Created on a 201, each with the name just posted, and Aborted on the matching transport failure; otherwise a script ran out |
| `Login.FirstPostAndPrompt` | two1/lib/server/login.py:93-96 | a non-empty initial username is posted first without a prompt; a None or `""` candidate is replaced by a prompted name before the first post |
| `Login.CreateUsernameOutcome` | two1/lib/server/login.py:96-110 | returns iff the last response is 200 or 201, and then returns the name just posted; the config changes iff that response is 201, and then only by the `username`/`mining_auth_pubkey` update and one save; transport errors escape after a post |
| `Login.ConflictConflictCreated` | two1/lib/server/login.py:92-110 | from no candidate with responses 400, 400, 201: three prompts, three posts of the three prompted names, the third returned, config written and saved once |
| `Login.CreateTwentyOneAccount` | two1/lib/server/login.py:40-58 | the method's result, posts, prompts and new config state equal those of `CreateAccount` |
| `Login.CreateAccountOutcome` | two1/lib/server/login.py:50-58 | missing auth propagates with no post or prompt; connection and timeout errors give None with config unchanged; after 200 it returns the config's prior username, after 201 the created name |
| `Login.AccountPostsPromptedNames` | two1/lib/server/login.py:41-51 | account creation posts only prompted names, post k the k-th one with the payout address, never the configuration's `username`; any post follows a prompt, and with both scripts non-empty the first post is the first prompted name |
| `Login.CheckSetupTwentyOneAccount` | two1/lib/server/login.py:24-37 | the method's result, posts, prompts and new config state equal those of `CheckSetup` |
| `Login.CheckSetupOutcome` | two1/lib/server/login.py:32-37 | never returns True; with `mining_auth_pubkey` set, no post, no prompt and no change; otherwise returns False iff account creation returned a falsy name, and None iff it returned a non-empty one |
| `Login.BoundWithoutLocalUsername` | two1/lib/server/login.py:32-58 | a first-post 200 with no username in the config leaves the config untouched, and set-up returns False |
| `Login.CheckSetupCreates` | two1/lib/server/login.py:32-37 | after a 201 for a non-empty name, set-up returns None with both keys written and saved |

## Left out

- Prompting and messages (`click.prompt`, `click.echo`, every `UxString` text): interactive I/O. The prompt is a scripted sequence of names, and output is not modelled.
- `TwentyOneRestClient` and the HTTP transport (line 90): `account_post` is a scripted sequence of status codes and transport failures.
- `MachineAuthWallet`, key generation and the keyring: foreign cryptographic and operating-system calls. The compressed public-key bytes are given.
- Base64 encoding (RFC 4648, section 4): a library call. It is the opaque parameter `encode`.
- `config.save()` writing to disk: only the saved snapshot and a save count are kept. `config.wallet.current_address` is one stored value, read once.
- The general regular-expression engine: only the one fixed pattern is modelled.
- The `param` and `ctx` arguments of `convert`, and the class attribute `name`: click plumbing with no effect on the result.
- `Login.CreateUsername`: the loop has no bound in the source. The model runs only as far as the scripts reach, and a run whose scripts run out is reported as `Stalled` rather than continuing.
- Other exceptions that the REST client or the prompt might raise are not modelled. Only connection and timeout errors are.
