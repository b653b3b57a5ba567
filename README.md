# User router: profile, login and logout handlers

A Dafny model of the decision logic in `routes/users.js`, the Express router
of a small application that keeps one plaintext credential record in
`user.json`. The router answers three requests:

- `GET /profile` returns the stored record as JSON, or status 500 with
  `{error: "Failed to read user data"}` when the file cannot be read or parsed.
- `POST /login` takes `{username, password}` as a JSON body. It checks, in this
  order and stopping at the first failure: both fields present (else 400 with
  `{status: false, message: "Username and password are required"}`); the
  record loads (else 500 with `{error: "Server error during login"}`); the
  username equals the stored one (else `"User Name is invalid"`); the password
  equals the stored one (else `"Password is invalid"`). Only then does it answer
  `{status: true, message: "User Is valid"}`. All three verdicts are sent with
  status 200.
- `GET /logout?username=...` answers `<b>USERNAME successfully logged out.</b>`
  with the username inserted verbatim, or 400 with
  `<b>Username parameter is required</b>`.

Each handler is a function from its inputs to the response it writes
(`users.dfy`, module `Users`; `wrappers.dfy` holds `Option`). Reading the file
becomes a parameter `stored: Option<UserRecord>`, where `None` is a file that
cannot be read or parsed. A request field is an `Option<string>`. The source's
`!username` test on a string is true for an absent or an empty string, and
`Present` models exactly that. The login handler is split into `Check` (which
outcome the sequence of tests reaches) and `Respond` (the status and body
written for that outcome). `Login` is their composition. Each response has a
client-side reading (`RecordOf`, `ReadOutcome`, `LoggedOutUser`), and the
contracts prove that each reading recovers what the handler was given.

The doc comment above the logout handler gives the sentence as
`<b>${username} successfully logout.<b>`. The code sends
`<b>${username} successfully logged out.</b>`, and the model follows the code.

## Model

| member | source | states |
|---|---|---|
| Users.Profile | routes/users.js:9-17 | status 200 exactly when the record loads, with the record returned unchanged; otherwise 500 with `{error: "Failed to read user data"}`; reading the record back from the response gives exactly the stored value |
| Users.Check | routes/users.js:42-71 | the five outcomes in their precedence order, each as an if-and-only-if: missing input exactly when a field is absent or empty; storage error exactly when both are present and the store is unreadable; username mismatch for every password once the usernames differ; password mismatch only after the username matched; valid exactly when both fields equal the stored pair (exact, case-sensitive, untrimmed) |
| Users.Respond | routes/users.js:44-75 | 400 exactly for missing input, 500 exactly for a storage error, `status: true` exactly for a valid login; the written response identifies its outcome uniquely |
| Users.Login | routes/users.js:40-76 | the exact status and body of every branch: missing field gives 400 whatever the store holds (so the store is not consulted first); with both fields present an unreadable store gives 500 and never a verdict; a wrong username gives "User Name is invalid" for every password; a right username with a wrong password gives "Password is invalid"; "User Is valid" exactly when both fields equal the stored pair; status 200 exactly when a verdict is given |
| Users.ValidLoginReachable | routes/users.js:44-71 | some request logs in successfully against a stored record if and only if neither stored field is empty: an empty stored username or password can never be matched, because an empty request field is rejected as missing |
| Users.Logout | routes/users.js:82-90 | a present, non-empty username gives status 200 and exactly `<b>` + username + ` successfully logged out.</b>`, with no escaping; an absent or empty one gives 400 and exactly `<b>Username parameter is required</b>`; the store is not an input; reading the username back from the sentence gives exactly the one supplied |

## Left out

- The Express plumbing (router, route registration, `res.status`, `res.json`, `res.send`, `module.exports`): each handler returns a response value instead.
- Reading and parsing `user.json` (`fs.readFileSync`, `path.join`, `JSON.parse`): abstracted as `Option<UserRecord>`. Extra fields in the file, which `/profile` would also return, are not modelled.
- Stored fields that are not strings (a missing `username` key, a number) are not modelled; the record always holds two strings. A file that parses to `null` makes the login handler throw and answer 500, which the `None` case covers.
- JavaScript truthiness of non-string request values (`0`, `false`, objects, arrays from a repeated query parameter) is not modelled: fields are strings or absent.
- A request without a body (`req.body` undefined) makes the destructuring throw and the login handler answer 500; this path is not modelled.
- The handlers do no HTML escaping, hashing or constant-time comparison, and the model adds none.
