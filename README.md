# StressSense chat sessions — a Dafny model

StressSense is a small Streamlit client. It keeps a history of chat "check-in" sessions and shows them in a sidebar. It forwards the newest user message to an external stress-assessment agent (an n8n webhook). Then it stores the agent's reply as an assistant message, and the stress label the agent returns.

This project models the part of `main.py` that has rules you can state and check:

- **Session store** (`Store.SessionStore`). This is the insertion-ordered dictionary of session records plus the "current" id, updated in place.
  - `CreateNewSession` adds a record and makes it current.
  - `Initialise` guarantees that a current session exists.
  - `Select` moves only the pointer.
  - `Current` is the lookup that the main panel makes.
- **Sidebar view** (`Sidebar`). These are pure functions of the store.
  - The stable newest-first sort by date string.
  - The 40-character preview.
  - The `"Not assessed"` fallback for the stress label.
  - The button label.
  - The `[11:]` time caption.
- **Agent gateway** (`Gateway`). It builds the nested payload `{"session_id", "body": {"messages": [{"text"}]}}`. It also classifies what the HTTP call produced. That result is an input datatype: a transport exception, or a status with a body that is unparseable or a JSON object with optional `message` and `stress_level` keys.
- **Turn controller** (`Turn`, and the `Submit` and `ReplyCycle` methods). The source runs a turn as two script re-executions. The model therefore has two operations.
  - `Submit` appends a user message.
  - `ReplyCycle` runs only when the log ends on a user message. It appends exactly one assistant message, and it overwrites the stress label only on a 200 response with a JSON body.
- **Clock and strings** (`Clock`, `Strings`).
  - `Clock` covers the `strftime` formats of `now()` and of the session date.
  - `Strings` covers Python's code-point string order, which the sort compares dates with, and `str(int)`, which goes into the connection-error text.

The clock reading, the fresh session id and the outcome of the HTTP call are parameters. Nothing is read from the environment.

Behaviour of the code worth noting:

- A 200 response with JSON but no `message` key counts as success. The reply is `"No message found."` and the stress label is still written (`main.py:96-99`).
- A non-200 status gives exactly `"Connection error: <status>"`, without the body (`main.py:103`).
- Selecting a session assigns the pointer without checking the id (`main.py:50`). Its only caller offers the stored ids, so `Select` requires the id to be stored.
- The stress label shown falls back through Python's `or` (`main.py:45`). So an empty label also shows as `"Not assessed"`.

## Model

| member | source | states |
|---|---|---|
| `Clock.Now` | main.py:9-10 | `now()` is a 16-character `YYYY-MM-DD HH:MM` stamp whose first ten characters are the date stamp of the same reading |
| `Clock.FormatDate` | main.py:14 | the session date is a 10-character string with dashes at positions 4 and 7 |
| `Clock.FormatDateFields` | main.py:14 | the other eight characters of the date stamp are digits that read back as the year, month and day of the reading |
| `Clock.FormatDateOrder` | main.py:14-38 | comparing two date stamps as Python strings, as the sidebar sort does, is exactly comparing the dates on the calendar |
| `Strings.StrLeTotal` | main.py:36-39 | Python's `str <=` (modelled by `Strings.StrLe`: code-point order, a proper prefix first), which the sort compares date keys with, is total |
| `Strings.StrLeTransitive` | main.py:36-39 | that order is transitive |
| `Strings.StrLeAntisymmetric` | main.py:36-39 | that order is antisymmetric, so equal keys are equal strings |
| `Strings.Decimal` | main.py:103 | `str(status)` is a non-empty string of decimal digits with no leading zero |
| `Strings.DecimalRoundTrip` | main.py:103 | the number printed by `str(status)` reads back as that status |
| `Sidebar.SortByDateDesc` | main.py:35-41 | the sidebar order is a permutation of the stored sessions, is non-increasing by date, and keeps insertion order among sessions with the same date (the sessions of every date appear in input order) |
| `Sidebar.InsertByDate` | main.py:35-41 | one insertion step of that stable sort keeps the multiset, the order and the per-date order |
| `Sidebar.StableOrderUnique` | main.py:35-41 | two newest-first orders with the same per-date subsequences are equal, so the three properties fix the order completely |
| `Sidebar.SidebarOrderIsTheStableSort` | main.py:35-41 | any newest-first ordering of the store that keeps insertion order among equal dates is exactly `SortByDateDesc` of the store |
| `Sidebar.Preview` | main.py:44 | a text of at most 40 characters is shown verbatim; a longer one as its first 40 characters followed by `...`; the preview never exceeds 43 characters |
| `Sidebar.SessionPreview` | main.py:43-44 | a session with no messages previews as `No messages`, otherwise as the preview of its last message's text |
| `Sidebar.StressLabel` | main.py:45 | the label shown is never empty: the stored label when it is a non-empty string, otherwise `Not assessed` |
| `Sidebar.EntryLabel` | main.py:47 | a sidebar button label is the session date, ` - `, the session preview, then the stress label shown in parentheses, each part at its stated position |
| `Sidebar.TimeOfDay` | main.py:65 | the caption is what follows the first 11 characters of the timestamp, and empty for shorter stamps |
| `Sidebar.CaptionOfNow` | main.py:10-65 | the caption of a message stamped by `now()` is its `HH:MM` |
| `Gateway.BuildPayload` | main.py:81-86 | the payload carries the current session id and exactly one message, the text of the log's last message |
| `Gateway.Classify` | main.py:92-106 | the outcome takes the branch `KindOf` names (transport failure; non-200; 200 with an unparseable body; 200 with JSON); the new stress label is present exactly on the success branch (status 200 with JSON), and is then the `stress_level` field or `Not assessed`; the reply is the `message` field or `No message found.`; a non-JSON 200 yields the fixed diagnostic; a non-200 yields `Connection error: ` and the status; a transport failure yields the network-error prefix and the exception text |
| `Gateway.RemoteErrorNamesStatus` | main.py:103 | a connection-error text is the prefix followed only by digits that read back as the status, so the body never reaches it |
| `Gateway.DiagnosticsDistinct` | main.py:100-106 | the three failure kinds give different assistant texts |
| `Turn.SubmitStep` | main.py:69-71 | an empty prompt changes nothing; a non-empty one appends exactly one `user` message with that text at the end, keeps every earlier message and the stress label, and leaves the session awaiting a reply |
| `Turn.ReplyStep` | main.py:77-113 | a session that fails the test of main.py:77 (`AwaitingReply`: non-empty log ending on a `user` message) is unchanged; otherwise exactly one `assistant` message with the classified text is appended, earlier messages are kept, the log no longer awaits a reply, and the stress label changes only on success, where it becomes the classified label |
| `Turn.TurnAddsTwo` | main.py:69-113 | a submitted prompt followed by its reply cycle grows the log by exactly two, the prompt then the assistant reply, and leaves it idle |
| `Turn.TurnStressOnlyOnSuccess` | main.py:92-106 | over a whole turn the stress label is overwritten on success and untouched on any other outcome |
| `Turn.ReplyIdempotent` | main.py:77 | a second reply cycle without a new prompt changes nothing |
| `Store.SessionStore.constructor` | main.py:24-25 | the store starts with no sessions and no current id |
| `Store.SessionStore.Items` | main.py:37 | `sessions.items()` lists the stored records in insertion order |
| `Store.SessionStore.CreateNewSession` | main.py:12-21 | exactly one record is added under the fresh id, with today's date, no messages and no stress label; it becomes current; every other record is unchanged and the id is appended to the insertion order |
| `Store.SessionStore.Initialise` | main.py:27-28 | after initialisation a current id exists and names a stored session; a store without one gains exactly one empty record under the fresh id, appended to the insertion order and made current; a store that already had one is left unchanged |
| `Store.SessionStore.Select` | main.py:50 | selecting a stored session changes only the current pointer |
| `Store.SessionStore.Current` | main.py:59 | the current lookup succeeds and returns a stored record carrying the current id |
| `Store.SessionStore.SidebarOrder` | main.py:35-41 | the sidebar shows exactly the stored records, each once, newest date first, equal dates in insertion order |
| `Store.SessionStore.Submit` | main.py:69-71 | the current session becomes `SubmitStep` of itself; no other session, the order or the pointer changes |
| `Store.SessionStore.ReplyCycle` | main.py:77-113 | the current session becomes `ReplyStep` of itself; the payload is sent exactly when the log ended on a `user` message; nothing else changes |

The store's invariant (`Valid`) is kept by every method. It says:

- the keys are exactly the insertion order, and that order has no repeats;
- each record carries its own id;
- a session with no messages has no stress label;
- the current id, once set, names a stored session.

Two scenario methods, `Store.FirstCheckIn` and `Store.SwitchCheckIns`, drive the store through a first check-in and a session switch. They use only the contracts above:

- a 200 reply with `"High"`;
- a 500 reply that leaves the label alone;
- a reply cycle with nothing pending;
- switching sessions.

## Left out

- Streamlit rendering is not modelled: the sidebar and chat widgets, the spinner, `st.rerun` and the re-execution of the script (main.py:30-32, 46, 48-49, 51, 54, 56, 62-64, 68, 74, 78, 115). The button label of line 47 is `Sidebar.EntryLabel` and the caption of line 65 is `Sidebar.TimeOfDay`. The two phases of a turn are the two methods `Submit` and `ReplyCycle`.
- The HTTP call is not modelled: `requests.post`, the webhook URL and the 30-second timeout (main.py:7, 89). Their result is the `Gateway.Outcome` parameter.
- JSON parsing of the response and serialisation of the payload are not modelled. The body is the abstract `Gateway.Body`, and the payload is a record of the nested shape.
- A JSON `null` or a non-string value under `message` or `stress_level` is not modelled, because keys are either absent or hold a string.
- A 200 JSON body that is not an object is not modelled. There, `.get` raises an uncaught `AttributeError`, which falls outside the four classified outcomes.
- The text of `str(e)` for a transport failure is not computed. It comes from the HTTP library, so it is the `errText` field of the outcome.
- `uuid.uuid4` and `datetime.now` are parameters. The id must be fresh (the source assumes uuid4 never collides), and the clock reading must have a four-digit year (`%Y` is only four digits wide from year 1000 on).
- The calendar validity of a day within its month is not checked. The model does not need it.
- `Store.SessionStore.Select`: requires the id to be stored instead of failing with `NotFound`. The source performs no check there, and its only caller passes stored ids.
