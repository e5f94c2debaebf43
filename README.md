# assumerole, modelled in Dafny

`assume PROFILE` assumes the AWS IAM role named by a local profile. It asks for an MFA code when the profile names an MFA device and prints the temporary credentials as shell `export` lines. This project models the decision logic under the I/O. It covers:

- the default session name, `user@host`;
- the session-duration cache. For each role ARN the cache keeps the longest session duration that the token service granted, and uses it as the duration hint for later runs;
- how the assume-role request is built from the profile configuration, the cached hint and the user's options;
- how the granted credentials are printed.

Modules:

- `SessionName`: `ShortHost` (the host name up to its first `.`) and `DefaultSessionName`.
- `DurationCache`: the parsed cache document. The file is an `Option<Document>`, where `None` means the file is absent, or is not valid JSON (`json.loads` raises `JSONDecodeError`). `LoadCache` and `GetMaxDuration` are functions. `CacheFile` is a class whose `contents` field is the file. Its methods `WriteCache` and `CacheMaxDuration` update that field the way the program rewrites the file. `Recorded` describes the file after a duration is recorded, and the lemmas about it state the high-water-mark and frame properties.
- `AssumeRole`: `ComposeRequest` builds the request map field by field, and `IsRequestFor` states what that map must contain. `AssumeProfileRole` sends the request and updates the cache. These come in as inputs: the profile configuration, the account name, the raw host name, the MFA code and the token service's answer.
- `Envars`: `ComposeEnvars` and the three `export` lines. `SplitLines` is an independent inverse of the join (Python's `str.split("\n")`).
- `Wrappers`: `Option` and `Result`.

The code marks "no duration" and "no hint" with `0`, and the model keeps that sentinel. The docstring of `get_max_duration` says it returns `None` when there is no hint (assumerole/main.py:77), but the code returns `0` (assumerole/main.py:86, 90, 94); the model follows the code.

The code records any non-zero effective duration, including a hint it just read from the cache. Recording the hint never rewrites the file, because it is not larger than itself. The model follows the code.

## Model

| member | source | states |
|---|---|---|
| `SessionName.ShortHost` | assumerole/main.py:63 | the result is a prefix of the host name with no `.` in it, and it stops at the first `.` or at the end |
| `SessionName.ShortHostIsUnique` | assumerole/main.py:63 | any dot-free prefix that stops at a `.` or at the end equals `ShortHost`, so those three properties determine the short host |
| `SessionName.DefaultSessionName` | assumerole/main.py:55-64 | the name is the user, then `@`, then the host name cut at its first `.` |
| `SessionName.DefaultSessionNameExample` | assumerole/main.py:62-64 | user `alice` on host `box.example.com` gets `alice@box` |
| `DurationCache.AbsentOrCorruptHasNoHint` | assumerole/main.py:159-182 | a cache file that is absent or not valid JSON loads as the empty cache, so every role's hint is 0 |
| `DurationCache.RecordedOverAbsent` | assumerole/main.py:197-202 | recording over an absent or corrupt file writes a fresh document whose table holds only the role's duration when the duration is positive, and leaves the file alone otherwise |
| `DurationCache.GetMaxDuration` | assumerole/main.py:67-96 | the hint is the role's entry in the `MaxSessionDuration` table; it is 0 when the cache is empty, has no table, or has no entry for the role |
| `DurationCache.CacheFile.WriteCache` | assumerole/main.py:185-194 | the file afterwards holds exactly the document, and loading it gives the document back |
| `DurationCache.CacheFile.CacheMaxDuration` | assumerole/main.py:197-202 | the new file is `Recorded(old file, role, duration)`: rewritten with the role raised to the duration when the duration beats the stored value (missing counts as 0), otherwise untouched |
| `DurationCache.RecordedIsHighWaterMark` | assumerole/main.py:197-202 | after recording, the role's hint is the larger of its old hint and the duration, so it never decreases |
| `DurationCache.RecordedFrame` | assumerole/main.py:199-202 | recording changes no top-level key other than `MaxSessionDuration` and no table entry other than the role's own |
| `DurationCache.RecordedKeepsOtherHints` | assumerole/main.py:199-202 | the hint of every other role is the same before and after recording |
| `DurationCache.RecordedWritesOnlyWhenLarger` | assumerole/main.py:200-202 | the file changes if and only if the duration exceeds the role's stored hint |
| `AssumeRole.ComposeRequest` | assumerole/main.py:99-129 | fails with a missing-role error iff the profile has no `role_arn`. Otherwise `RoleArn` is the profile's ARN and `RoleSessionName` is the given name, or `user@host` when empty. The effective duration is the given one when non-zero, else the cached hint. `DurationSeconds` is present iff that duration is non-zero. `SerialNumber` and `TokenCode` are present iff the profile has `mfa_serial`, and then equal it and the code. No other field is present |
| `AssumeRole.AssumeProfileRole` | assumerole/main.py:99-145 | without `role_arn`, nothing is sent and the cache is unchanged. Otherwise the request sent is as above. A refusal returns the reason and leaves the cache unchanged. A grant returns the credentials and records the effective duration in the cache iff it is non-zero |
| `AssumeRole.RequestIsDetermined` | assumerole/main.py:108-129 | two requests for the same role, session name, duration and MFA data are equal, so `IsRequestFor` fixes the request completely |
| `Envars.SplitJoinLines` | assumerole/main.py:215 | splitting on newlines undoes the newline join of one or more newline-free lines |
| `Envars.ComposeEnvars` | assumerole/main.py:205-215 | the text starts with the `AWS_ACCESS_KEY_ID` line and ends with the `AWS_SESSION_TOKEN` line, so there is no trailing newline |
| `Envars.ComposeEnvarsLines` | assumerole/main.py:205-215 | the text consists of exactly three lines: `export AWS_ACCESS_KEY_ID=…`, `export AWS_SECRET_ACCESS_KEY=…`, `export AWS_SESSION_TOKEN=…`, in that order (values without newlines) |
| `Envars.ComposeEnvarsExample` | assumerole/main.py:205-215 | for the credentials `AKIA1`, `secret1`, `tok1`, `compose_envars` returns exactly `export AWS_ACCESS_KEY_ID=AKIA1`, newline, `export AWS_SECRET_ACCESS_KEY=secret1`, newline, `export AWS_SESSION_TOKEN=tok1`, with no trailing newline |

`AssumeRole.DevProfileScenario` is a client of `AssumeProfileRole`. It shows the contracts are enough to follow a profile with an empty cache across three runs. The first run asks for 3600 seconds, and the cache records 3600. The second asks for 1800, and the cache stays at 3600. The third asks for no duration, and the request carries 3600.

## Left out

- The token service call (`boto3` STS `assume_role`) and the profile lookup (`botocore` `get_scoped_config`): they are foreign SDK calls. The configuration map and the service's answer (`Granted` or `Rejected`) are inputs. The source profile chooses only which identity makes the call, so it is not modelled.
- The interactive MFA prompt: the code the user types is a parameter. A prompt the user aborts is not modelled.
- The account name (`pwd.getpwuid`) and the host name (`socket.gethostname`): they come from the operating system and are parameters.
- File-system work in `load_cache` and `write_cache` (existence test, read, directory creation, write): the file is its parsed content. JSON encoding and decoding are not modelled; whether the file is valid JSON is part of the input (`None` when `json.loads` raises `JSONDecodeError`). The warning says a corrupt file "will be moved", but the code never moves it, and the model does not move it either.
- DurationCache.LoadCache: a cache file that exists but cannot be read (`OSError`, such as a permission error or a directory) or is not valid UTF-8 text (`UnicodeDecodeError`) makes `load_cache` raise, because only `JSONDecodeError` is caught (assumerole/main.py:170-172); the model cannot represent such a file, and `None` never stands for it.
- Cache documents whose `MaxSessionDuration` value is not an object of integers, and files whose top level is not a JSON object: `Document` excludes them by its type. The tool never creates such an entry. Reading or raising a role whose own hand-edited entry is not an integer makes the source raise or compare the wrong kinds of values. Recording another role writes a hand-edited non-integer entry back unchanged (assumerole/main.py:199-202), and the model cannot represent that.
- The expiration time of the credentials, and all logging (including the humanized expiry message): they are diagnostics only.
- DurationCache.CacheFile.WriteCache: a write that fails (`mkdir` or `write_text` raising `OSError`, assumerole/main.py:191, 194) is not modelled. The write always succeeds here. In the source the failure propagates out of `cache_max_duration` at assumerole/main.py:145, after the grant and before `return response` (assumerole/main.py:156), so no credentials are printed. In that case `AssumeProfileRole` returns `Success(response.credentials)`.
- The trailing newline that `cli`'s `print` adds after the composed text (assumerole/main.py:52): the model stops at the value `compose_envars` returns.
- Command-line parsing and the `int(...)` conversion of `--duration`: this is CLI plumbing. A missing `--session` (Python `None`) and an empty one both read as the empty string.
- Races between concurrent runs on the cache file: a single run has no concurrency.
