# Weekly coaching voice agent: a Dafny model of its session logic

This project models the state handling of the weekly coaching voice agent
(`agent/agent.py`), and proves properties of that model. The model has four parts:

- **Note memory** (`notes.dfy`, module `Notes`). The module-level dict `memory` is
  shared by every planning agent of a process. `save_note` files a note under id
  `len(memory)+1` and confirms it with `Saved note #<id>: <note>`. `get_notes` lists
  the notes as `#<id>: <note>` lines joined by newlines, in insertion order, or says
  `No notes saved yet.`. The dict is modelled as its items in insertion order, with
  Python's assignment semantics: assigning to an existing key replaces its value in
  place, and a new key is appended. So "saving never overwrites a note" is proved
  from the invariant that the ids are exactly 1..n. It is not built into the model.
  The integer in those texts is rendered in decimal (`decimal.dfy`, module `Decimal`),
  with a parser proved to be its inverse.
- **Session mode resolution** (`sessions.dfy`, module `Sessions`). `entrypoint` reads
  the job metadata, with `None` read as `""`. The review agent runs with its opening
  only on exactly `review-coach`; any other value starts the planning agent with its
  opening. `StartSession` composes this choice with the review agent's construction.
- **Summary handoff** (`summary_store.dfy`, module `SummaryStore`). The file
  `data/latest_summary.json` is a single slot. It is modelled by what `json.loads`
  makes of it: absent, malformed, a JSON value that is not an object, or an object.
  `ReviewAgent.__init__` appends either the stored commitments under a heading or a
  fallback instruction to the review prompt.
- **Wrap-up tools** (`email_status.dfy` and `wrapup.dfy`, modules `EmailStatus` and
  `Wrapup`). `send_session_summary`, `send_review_summary` and `send_test_email`
  are methods of a class `World`. Its fields are the room's chat, the summary file
  and the emails handed to the email service. A ghost trace records the order of
  all these effects. The email configuration is an input, and so is the outcome of
  the send (accepted, or raised with a message). The status strings are pure
  functions of these inputs.

The model follows the code, including where its behaviour may surprise a reader:

- The notes live in one module-level dict shared by every planning agent of the process.
- An object without a `"summary"` key is not treated as a missing summary. It
  injects the commitments heading with empty text, because the code uses
  `data.get("summary", "")`. For the same reason the `KeyError` handler at
  `agent/agent.py:154` can never fire.
- A well-formed JSON value that is not an object (a list, a string, a number, null)
  makes `data.get` raise `AttributeError`. Nothing catches it, so constructing the
  review agent fails (`ReviewInstructions` returns `Failure("AttributeError")`) and
  the job does not fall back.
- A failed write of the summary file is not reported in the status. It propagates
  as an exception, and that is left out below.

## Model

| member | source | states |
|---|---|---|
| Decimal.NatToString | agent/agent.py:37 | the id in the reply is a non-empty string of decimal digits without a leading zero |
| Decimal.ParseNatToString | agent/agent.py:37 | reading the rendered id back as a decimal number gives the id, so distinct ids render differently |
| Notes.AssignThenLookup | agent/agent.py:36 | after `memory[k] = v`, looking up `k` gives `v` and every other key gives what it gave before |
| Notes.AssignAbsentAppends | agent/agent.py:36 | assigning a key that is not present appends it as the last item, so insertion order grows at the end |
| Notes.LookupSequential | agent/agent.py:35-36 | when the ids are 1..n in order, id `i` holds the i-th note saved, and every other id is absent, including n+1 |
| Notes.SaveNeverOverwrites | agent/agent.py:35-36 | saving under `len(memory)+1` grows the dict by exactly one entry, keeps the ids 1..n+1, stores the new note under the new id and leaves every earlier id with its note |
| Notes.NoteMemory.SaveNote | agent/agent.py:33-37 | appends `(len+1, note)` to the dict in insertion order, keeps the ids-are-1..n invariant and replies `Saved note #<len+1>: <note>` |
| Notes.SavedReplyInjective | agent/agent.py:37 | the reply of `save_note` determines both the id and the note |
| Notes.NoteMemory.GetNotes | agent/agent.py:40-44 | the listing is `No notes saved yet.` exactly when no note has been saved |
| Notes.RenderNotes | agent/agent.py:42-44 | the listing of no notes is `No notes saved yet.`; otherwise the `"\n"`-joined `#id: note` entries in insertion order, starting with the first note's entry |
| Notes.RenderNotesEmptyIff | agent/agent.py:42-44 | the "no notes" message and a listing of one or more notes never coincide |
| Notes.RenderNotesAppend | agent/agent.py:44 | saving one more note extends the listing by exactly its line, after a newline unless the listing was empty |
| Notes.SequentialLines | agent/agent.py:44 | under the invariant, the i-th entry joined into the listing is `#<i+1>: <i-th note saved>` |
| Notes.NoteLineInjective | agent/agent.py:44 | a line of the listing determines its id and its note |
| Notes.FirstTwoNotes | agent/agent.py:33-44 | two saves into a fresh memory reply `Saved note #1`/`#2` and list `#1: a` then `#2: b` |
| Sessions.Resolve | agent/agent.py:105-122 | the review agent and its opening are chosen exactly when the metadata is `review-coach`; otherwise the planning agent and its opening |
| Sessions.FallsBackToPlanning | agent/agent.py:105-115 | missing metadata, empty metadata and every other tag dispatch the same way, to the planning agent |
| Sessions.OpeningIdentifiesPersona | agent/agent.py:107-122 | the two openings differ, so the opening determines the agent |
| Sessions.StartSession | agent/agent.py:105-115 | a planning job's instructions are the coach prompt whatever the file holds; a review job fails exactly on a non-object file and otherwise gets the review agent's instructions |
| Sessions.ReviewSeesLastSummary | agent/agent.py:148-153 | a review job started after a summary was written is instructed with that exact summary under the commitments heading |
| Sessions.ReviewFallsBack | agent/agent.py:149-157 | a review job with an absent or malformed file is told that no commitments were found |
| SummaryStore.ReviewInstructions | agent/agent.py:148-157 | construction fails (`AttributeError`) exactly on a non-object file; otherwise the result is the prompt plus the fallback when nothing is read, or plus the heading and the read commitments |
| SummaryStore.Read | agent/agent.py:149-152 | an object is read and anything else falls back; an object reads as its `"summary"` value, or as `""` when it has no such key |
| SummaryStore.ReadWritten | agent/agent.py:78 | reading back the written file gives the summary that was written |
| SummaryStore.WriteThenReview | agent/agent.py:152-153 | after the write, the review instructions are the prompt, the heading and the summary |
| SummaryStore.InstructionsDetermineRead | agent/agent.py:149-157 | equal review instructions from the same prompt mean equal reads of the file: the fallback differs from every injected summary, and injected summaries differ from each other |
| EmailStatus.Deliver | agent/agent.py:80-92 | the email is skipped exactly when the key or `EMAIL_TO` is missing; it is delivered to `EMAIL_TO` exactly when configured and the send returns; on failure the message is the exception's text |
| EmailStatus.Attempted | agent/agent.py:81-88 | exactly one email is attempted when configured, none otherwise, from the coach sender to `EMAIL_TO` with the given subject and text |
| EmailStatus.WrapUpStatus | agent/agent.py:89-97 | the status starts with the tool's prefix (`Summary sent to chat` or `Review summary sent to chat`, as at lines 179-187), followed by ` and emailed to <to>`, `. Email failed: <message>` or `. Email skipped (missing RESEND_API_KEY or EMAIL_TO).` |
| EmailStatus.TestEmailStatus | agent/agent.py:50-66 | without configuration the status starts `Test email not sent. RESEND_API_KEY=` and says `missing` for an empty key; otherwise it is `Test email sent to <to>` or `Test email failed: <message>` |
| EmailStatus.WrapUpStatusInjective | agent/agent.py:89-97 | the status determines the tool (session or review summary), the outcome (emailed, failed, skipped), and the recipient or error text |
| EmailStatus.TestEmailStatusDistinguishes | agent/agent.py:47-66 | the test-email status tells not-sent from sent from failed, and names the recipient or the error exactly |
| Wrapup.World.SendSessionSummary | agent/agent.py:69-97 | publishes the summary on `lk.chat`, then overwrites the file with `{"summary": s}`, then attempts the email only when configured; the first two happen whatever the email does; returns the status of the email outcome |
| Wrapup.World.SendReviewSummary | agent/agent.py:164-187 | publishes the summary on `lk.chat`, then attempts the email; the summary file is unchanged; returns the review status of the email outcome |
| Wrapup.World.SendSummaryEmail | agent/agent.py:80-97 | the shared email step: attempts the email only when configured and returns the status of the outcome |
| Wrapup.World.SendTestEmail | agent/agent.py:47-66 | sends the fixed test message only when configured, with no chat message and no file write; returns the test status |
| Wrapup.SummaryHandoff | agent/agent.py:76-78 | whatever the file held and whatever the email did, a review agent constructed after `send_session_summary(s)` is instructed with `s`; the status reports emailed, failed or skipped |

## Left out

- Realtime session, room transport, the speech model, noise cancellation and `generate_reply` (`agent/agent.py:124-141`): external services. Of the session, the model keeps the chosen agent, its instructions and its opening text, and of the room, the chat messages the wrap-up tools publish.
- Wrapup.World.SendSessionSummary / SendReviewSummary: `send_text` (`agent/agent.py:71-74`, `166-169`) is assumed to return. If the chat send raises, the tool stops before the file write and the email, and that path is not modelled.
- Resend calls and environment loading (`agent/agent.py:13-17`): the API key, `EMAIL_TO` and the outcome of each send are inputs. The logger calls are not modelled.
- Filesystem and JSON: the summary file is modelled by its parsed form. `json.dumps`/`json.loads` are taken to round-trip a string. A file that exists but cannot be read or decoded as text raises an uncaught error, which is not modelled. Neither is a failed directory creation or write in `send_session_summary`.
- SummaryStore.Read: an object's `"summary"` value is modelled as a string. A non-string value would be rendered by Python's `str()`, which is not modelled.
- The prompt files `prompts/weekly_coach_system.txt` and `prompts/weekly_review_system.txt` are not part of this model. Their texts are opaque inputs (`Sessions.Prompts`).
- Signal handling and `cli.run_app` (`agent/agent.py:191-198`): process control.
- Concurrency: several jobs sharing `memory` and the summary file concurrently is not modelled; one job runs at a time.
- `agent/send_invitation.py`, `frontend/components/app/app.tsx` and the `audio-pytorch` scripts are not part of this model: they are thin I/O wrappers, UI code and exploratory numeric scripts.
