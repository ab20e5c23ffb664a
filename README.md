# CoverFlow launch hand-off, modelled in Dafny

CoverFlow is a Tauri desktop application. When the operating system starts it
with a `.cfj` document as an argument (a double-click on a report), the path
has to reach the web UI, which is not ready yet when the process starts. The
Rust entry point `src-tauri/src/main.rs` bridges that gap with a small
deferred, at-most-once, ordered hand-off:

- the **setup hook** scans the process arguments for the first one whose
  lowercased form ends with `.cfj` and pushes it, as given, onto a
  mutex-protected `Vec<String>` (`PendingOpen`);
- the **page-load handler** takes the lock, drains the vector in FIFO order
  and, for every path that `serde_json::to_string` encodes, evaluates
  `window.__CFJ_PENDING__ = window.__CFJ_PENDING__ || []; window.__CFJ_PENDING__.push(<encoded>);`
  in the webview, ignoring the outcome of the evaluation.

The model has four modules:

- `Wrappers` (`wrappers.dfy`): `Option`.
- `Scanner` (`scanner.dfy`): the argument test and the first-match scan, as
  functions with lemmas.
- `Delivery` (`delivery.dfy`): the script text, its inverse `Payload` (the
  argument text of the `push` call, i.e. the JSON literal), and `DeliveryScripts`, the specification of what a drain
  hands to the webview, with lemmas on order, skipping and at-most-once.
- `PendingOpenQueue` (`pending_open.dfy`): the class `PendingOpen` holding
  `items: seq<string>`, whose methods `Enqueue` and `DrainAndDeliver` change it
  in place; the setup hook `Setup`; and `LaunchScenario`, a client that runs a
  launch, a reload and a later enqueue.

Inputs the code takes from its environment are parameters: the argument list
(`std::env::args()`), whether `lock()` succeeded (`lockObtained`), and the
JSON encoder (`encode: string -> Option<string>`, `None` for an error). The
drain method returns the sequence of scripts it hands to `eval`.

## Model

| member | source | states |
|---|---|---|
| `Scanner.LowerChar` | src-tauri/src/main.rs:19 | definition (ASCII part of `to_lowercase` on one character); characterised by `Scanner.IsCfjPathIff` |
| `Scanner.Lowercase` | src-tauri/src/main.rs:19 | definition (`to_lowercase`, character by character); characterised by `Scanner.IsCfjPathIff` and `Scanner.IsCfjPathCaseInsensitive` |
| `Scanner.IsCfjPath` | src-tauri/src/main.rs:19 | definition (the `find` closure: lowercased form ends with `.cfj`); characterised by `Scanner.IsCfjPathIff` |
| `Scanner.FindCfj` | src-tauri/src/main.rs:19 | None exactly when no argument passes the `.cfj` test (so an empty list gives None); otherwise the argument at the first passing position, unchanged |
| `Scanner.IsCfjPathIff` | src-tauri/src/main.rs:19 | an argument passes iff it has at least four characters and ends with `.`, `c`/`C`, `f`/`F`, `j`/`J` |
| `Scanner.IsCfjPathCaseInsensitive` | src-tauri/src/main.rs:19 | two arguments with the same lowercased form either both pass or both fail |
| `Scanner.FindCfjAppend` | src-tauri/src/main.rs:19 | scanning `before + after` gives the match in `before` if there is one, else the match in `after` |
| `Scanner.UpperCasePathKept` | src-tauri/src/main.rs:19-22 | `["app.bin", "REPORT.CFJ"]` yields `REPORT.CFJ` in its original case |
| `PendingOpenQueue.PendingOpen.constructor` | src-tauri/src/main.rs:10 | the queue starts empty |
| `PendingOpenQueue.PendingOpen.Enqueue` | src-tauri/src/main.rs:21-23 | with the lock the path is appended at the tail; without it the queue is unchanged |
| `PendingOpenQueue.Setup` | src-tauri/src/main.rs:18-24 | appends exactly the scanned path at the tail when there is a match and the lock is obtained; otherwise the queue is unchanged |
| `PendingOpenQueue.PendingOpen.DrainAndDeliver` | src-tauri/src/main.rs:27-39 | with the lock the queue ends empty (failed encodings included) and the scripts are `DeliveryScripts` of the old queue; without the lock nothing changes and no script is produced |
| `Delivery.Script` | src-tauri/src/main.rs:32-35 | definition (the `format!` around the encoded path); characterised by `Delivery.PayloadOfScript`, `Delivery.ScriptOfPayload` and `Delivery.ScriptInjective` |
| `Delivery.ScriptsFor` | src-tauri/src/main.rs:31-37 | definition (one script if the encoding succeeds, none otherwise); characterised by `Delivery.FailedEncodingSkipped` and `Delivery.DeliveryScriptsSources` |
| `Delivery.DeliveryScripts` | src-tauri/src/main.rs:30-38 | definition (scripts of the drained paths in queue order); characterised by `Delivery.DeliveryScriptsSources`, `Delivery.DeliveryScriptsBound` and `Delivery.DeliveryScriptsAppend` |
| `Delivery.DeliveryScriptsSources` | src-tauri/src/main.rs:30-37 | script k comes from the path at `Sources[k]`; sources strictly increase (queue order, no path delivered twice) and every path that encodes is a source (none dropped) |
| `Delivery.DeliveryScriptsBound` | src-tauri/src/main.rs:30-37 | never more scripts than drained paths, and as many exactly when every path encodes |
| `Delivery.DeliveryScriptsAppend` | src-tauri/src/main.rs:30-38 | delivering `a + b` is delivering `a` then `b` (FIFO order); together with `DrainAndDeliver` leaving the queue empty, a path queued after a drain is delivered alone by the next one |
| `Delivery.FailedEncodingSkipped` | src-tauri/src/main.rs:31-37 | a path whose encoding fails contributes nothing and leaves the scripts of the paths around it unchanged |
| `Delivery.PayloadOfScript` | src-tauri/src/main.rs:32-35 | the argument text of the `push` call in each script is exactly the encoded path it was built from |
| `Delivery.ScriptOfPayload` | src-tauri/src/main.rs:32-35 | any text with the fixed prefix and `);` suffix is the script of its payload |
| `Delivery.ScriptInjective` | src-tauri/src/main.rs:32-35 | distinct encoded paths give distinct scripts |
| `PendingOpenQueue.LaunchScenario` | src-tauri/src/main.rs:17-39 | launch with `["app.bin", "report.cfj"]`: first page load delivers one script carrying the encoding of `report.cfj` (none if it does not encode); a reload delivers nothing; a later enqueue is delivered alone |

## Left out

- Tauri builder wiring: plugin registration (`opener`, `dialog`, `fs`), `.manage`, `.run`, `generate_context!` and the final `.expect` (main.rs lines 12-16 and 41-42).
- `Arc`/`Mutex` semantics and any interleaving of the setup hook with page loads: lock acquisition is a boolean parameter, and each operation runs as one atomic step.
- `std::env::args()`: the argument list is a parameter.
- The internals of `serde_json::to_string` (JSON string escaping): the encoder is an arbitrary function parameter returning `Option<string>`.
- The effects of `window.eval` in the webview. Its result is discarded in the source, so the model's output is the list of scripts handed to it, which no evaluation outcome can change. Likewise, decoding the JSON literal back into the path in the webview is not modelled: `Payload` gives the literal's text, not the decoded string.
- `Scanner.IsCfjPathIff`: lowercasing is modelled on ASCII letters only, whereas Rust's `to_lowercase` follows Unicode; non-ASCII characters are treated as unchanged.
