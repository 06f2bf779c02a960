# Command-line assistant core: routing, sessions and workflows

This project models the decision logic of a command-line assistant that
comes in two versions. `AI-Agent_v5.1.py` has document sessions.
`AI-Agent_v5.py` is the earlier version without them. The model covers:

- the intent detectors that classify a query (weather, search, email,
  document, close document);
- the router that picks one branch by a fixed priority;
- the `current_document` record, opened by the document workflow and
  cleared by the close branch;
- the document workflow: extension dispatch, the reader's result record,
  and the 8000-character window sent to the model;
- the email workflow, with its three retry loops over the user's input;
- the two-phase tool round and the `call_function` dispatcher;
- the post-processing of a generated email: fence stripping, the
  fallback subject split, and the signature rule;
- the search tool's `is_file` test and its sentinel result.

The outside world is injected as the `Services` value in
`services.dfy`: chat completions, `json.loads`/`json.dumps`, `str()` of a
decoded value, the weather API, the filesystem walk, `os.path.exists`,
the document text extractors, and the SMTP transport. Each is a total
function. An exception it raises is a `Failure` carrying the exception's
text. `input()` is a sequence of lines the workflows consume. Running
out of lines is the `EOFError` whose text the workflows' own handlers
report.

Layout, one module per file:

- `text.dfy`: Python string operations over `seq<char>`. Lower-casing and
  whitespace are ASCII only.
- `patterns.dfy`: `re.search` for patterns made of literals joined by
  `.*`, an executable search proved against a witness semantics.
- `detectors.dfy`: the five detectors; `router.dfy`: both routers.
- `services.dfy`: the injected operations and the JSON value type.
- `paths.dfy`: POSIX `basename` and `splitext`.
- `session.dfy`: the `current_document` record as a class.
- `documents.dfy`: `read_document`, the analysis and follow-up prompts,
  `handle_document_workflow`.
- `addresses.dfy`: the anchored address pattern and the recipient filter.
- `drafting.dfy`: `generate_email`.
- `email_workflow.dfy`: `handle_email_workflow`.
- `tools.dfy`: the search result, argument binding, `call_function`, the
  tool round.
- `assistant.dfy`: the branches both routers share.
- `agent.dfy` / `agent_v5.dfy`: `get_assistant_response` of each version.

The versions differ in the sender's signature: "Your_Name" in v5.1,
"Aritra Basak" in v5. It is passed as a `Signature` value. Each
version's entry method fixes its own.

## Model

| member | source | states |
|---|---|---|
| Detectors.DetectorsMeaning | AI-Agent_v5.1.py:384-435 | each detector holds exactly when one of its patterns is found in the lower-cased query |
| Detectors.PairMeaning | AI-Agent_v5.1.py:384-435 | a pattern `a.*b` is found exactly when `a` occurs and `b` occurs after it with no newline in between |
| Detectors.AnyMatchCorrect | AI-Agent_v5.1.py:415 | `any(re.search(p, q) for p in patterns)` holds exactly when some pattern of the list matches |
| Detectors.DetectorsIgnoreCase | AI-Agent_v5.1.py:384-435 | queries with the same lower-cased form get the same verdict from all five detectors |
| Detectors.DetectorsCaseInsensitive | AI-Agent_v5.py:267-298 | the upper-cased, original and lower-cased query get the same verdicts |
| Patterns.SearchCorrect | AI-Agent_v5.1.py:384-435 | the executable search agrees with the witness semantics of `re.search` for these patterns |
| Router.RouteIsFirstEligible | AI-Agent_v5.1.py:590-665 | the v5.1 router picks an eligible branch, and none of higher priority is eligible |
| Router.CloseComesFirst | AI-Agent_v5.1.py:590 | a close request is routed to the close branch whatever the session |
| Router.FollowUpExactly | AI-Agent_v5.1.py:604 | the follow-up branch is taken exactly when a document is active and no close, document, email, weather or search detector holds |
| Router.WeatherBeforeSearch | AI-Agent_v5.1.py:617-622 | a query that is both weather and search (and not close, document or email) takes the weather tool |
| Router.DocumentBeforeTools | AI-Agent_v5.1.py:609-613 | a document request (not a close) outranks email, weather and search |
| Router.SessionOnlyAddsFollowUp | AI-Agent_v5.1.py:604-606 | the session flag changes the branch only by turning generic chat into a follow-up |
| Router.AgreesWithEarlierVersion | AI-Agent_v5.py:399-413 | with no session and no close or document intent, the two routers agree |
| Router.RouteV5IsFirstEligible | AI-Agent_v5.py:401-413 | the v5 router picks the first eligible of email, weather, search, generic |
| Router.EmailFirstInEarlierVersion | AI-Agent_v5.py:401-402 | in v5 an email query always enters the email workflow |
| Session.WritesAreConsistent | AI-Agent_v5.1.py:42-47 | both writes of the record (cleared, opened) keep "inactive iff all fields absent" |
| Session.DocumentSession.constructor | AI-Agent_v5.1.py:42-47 | the initial record is the cleared record |
| Session.DocumentSession.Open | AI-Agent_v5.1.py:467-472 | the record afterwards holds the content, file name and analysis and is active |
| Session.DocumentSession.Close | AI-Agent_v5.1.py:591-598 | the record afterwards is cleared; the previous file name is returned |
| Paths.BasenameFacts | AI-Agent_v5.1.py:261 | the basename holds no `/`, and the path is a directory prefix followed by it |
| Paths.ExtensionFacts | AI-Agent_v5.1.py:231 | a non-empty extension is a suffix of the basename that starts with its only dot and is preceded by some non-dot |
| Paths.ExtensionOfLastDot | AI-Agent_v5.1.py:231 | the last dot of the last component, with some non-dot before it there, starts the extension |
| Paths.ExtensionNonEmpty | AI-Agent_v5.1.py:231 | the extension is non-empty exactly when the last component holds a dot with a non-dot before it |
| Documents.ReadDocumentErrors | AI-Agent_v5.1.py:227-266 | missing file, legacy `.doc`, unsupported extension and extractor failure each give their error text |
| Documents.ReadDocumentSuccess | AI-Agent_v5.1.py:258-263 | a successful read has the stripped text, the basename, and one of `.pdf`, `.docx`, `.txt` |
| Documents.Truncate | AI-Agent_v5.1.py:285 | `content[:8000]` is the prefix of length min(8000, length) |
| Documents.TruncateSeesOnlyWindow | AI-Agent_v5.1.py:314 | texts that agree on their first 8000 characters truncate to the same text, so only that window can reach the prompts |
| Documents.PromptsEmbedWindow | AI-Agent_v5.1.py:280-318 | both prompts end in exactly the first min(8000, length) characters of the text; the question is the user message |
| Documents.DocumentDialogFacts | AI-Agent_v5.1.py:445-481 | the record is written exactly when the read succeeds with non-blank text, and then with that text, the basename and its analysis; a failed read answers with the reader's error; blank text is reported; one input line is used |
| Documents.HandleDocumentWorkflow | AI-Agent_v5.1.py:439-484 | the method's reply and record are those of the workflow function; the record is unchanged unless it was written |
| Drafting.SignatureRule | AI-Agent_v5.py:141-142 | afterwards the body contains the sender's name; it is unchanged if it already did, extended by the block otherwise; applying it twice equals once |
| Drafting.FenceStripping | AI-Agent_v5.py:132-133 | a reply starting with the json fence has no fence left and is trimmed; any other reply is unchanged |
| Drafting.FencedReply | AI-Agent_v5.py:132-133 | a reply made of the json fence, a backtick-free text and a closing fence becomes exactly that text, stripped |
| Text.ReplaceAllSplit | AI-Agent_v5.py:133 | `replace` keeps the text before an occurrence that no earlier occurrence overlaps, and substitutes that occurrence |
| Text.ReplaceAbsent | AI-Agent_v5.py:133 | `replace` of a string that does not occur leaves the text unchanged |
| Drafting.RemoveFence | AI-Agent_v5.py:133 | removing every triple backtick leaves no triple backtick |
| Drafting.SubjectOfFirstColon | AI-Agent_v5.py:158 | on a subject line the first colon is at index 7, so the subject is the trimmed text after it |
| Drafting.FallbackSplitFacts | AI-Agent_v5.py:151-161 | without a subject line the reply is kept whole; with one, the first such line gives the subject, the body's lines are the other lines in order, and reinserting the line rebuilds the trimmed reply |
| Drafting.SplitSubjectLine | AI-Agent_v5.py:151-161 | the `for`/`break` loop computes the fallback split |
| Drafting.FromJsonRules | AI-Agent_v5.py:137-148 | a string body gets the signature rule; a list body never fails; a dict body succeeds exactly when the name is one of its keys; other bodies and non-objects fail |
| Drafting.FromJsonDefaults | AI-Agent_v5.py:140-145 | a missing subject is "Email Subject" and a missing body is the bare signature block |
| Drafting.ErrorDraftShape | AI-Agent_v5.py:173-178 | the error draft is unsuccessful, with subject "Error generating email" and the error body prefix |
| Drafting.DraftedRules | AI-Agent_v5.py:96-178 | a failed completion gives the error draft; a reply that does not decode gives a successful draft naming the sender; a decoded reply is drafted from the value; every failure has the error subject and body prefix |
| Drafting.GenerateEmail | AI-Agent_v5.1.py:104-186 | the method returns the draft the specification function defines |
| Addresses.IsValidAddressCorrect | AI-Agent_v5.py:349 | the executable check accepts exactly what `re.match` with the anchored pattern accepts, including `$` before a final newline |
| Addresses.HasShapeCorrect | AI-Agent_v5.1.py:535 | the scan decides the shape local `@` domain `.` at-least-two letters |
| Addresses.ValidHasOneAt | AI-Agent_v5.py:363 | a valid address holds exactly one `@` |
| Addresses.StrippedMeansShape | AI-Agent_v5.1.py:545-549 | for a trimmed part, the pattern means exactly the address shape |
| Addresses.ValidOnlyMembers | AI-Agent_v5.1.py:548-552 | a part is kept exactly when it is valid |
| Addresses.CollectValid | AI-Agent_v5.1.py:546-552 | the `append` loop yields the valid parts in their original order |
| EmailWorkflow.CollectFacts | AI-Agent_v5.1.py:537-562 | the address prompt sends only to a non-empty list of valid addresses from one input line, with the draft's subject and body; otherwise input runs out |
| EmailWorkflow.ConfirmFacts | AI-Agent_v5.1.py:524-532 | the "not sent" reply comes with no email sent; a send follows a yes/y line with no earlier no/n and is the address stage from the next line on |
| EmailWorkflow.AcceptGoesOn | AI-Agent_v5.1.py:523-530 | the first recognised yes/y, before any no/n, goes on to the address prompt from the line after it |
| EmailWorkflow.DeclineStops | AI-Agent_v5.1.py:524-528 | the first recognised no/n, before any yes/y, answers "Email draft saved. Not sent.", sends nothing and leaves the lines after it |
| EmailWorkflow.AfterDraftFacts | AI-Agent_v5.py:322-323 | a failed draft returns "Failed to generate email: " and its body without reading input; a send carries a successful draft's subject and body |
| EmailWorkflow.CollectSends | AI-Agent_v5.1.py:537-562 | the first line holding a valid address ends the address prompt: exactly that line's valid addresses get the draft's subject and body, the reply is the transport's, and the lines after it are left |
| EmailWorkflow.NameGoesOn | AI-Agent_v5.1.py:491-506 | the first line with a non-blank name starts the draft under that trimmed name, and the dialog goes on from the line after it |
| EmailWorkflow.EmailDialogFacts | AI-Agent_v5.1.py:488-570 | a send needs a non-blank name line (the first), a successful draft and a non-empty valid recipient list; input is consumed from the front |
| EmailWorkflow.SendReplyDistinct | AI-Agent_v5.1.py:564-567 | the transport's replies differ from the decline and end-of-input replies |
| EmailWorkflow.HandleEmailWorkflow | AI-Agent_v5.1.py:488-570 | the name loop and what follows compute the workflow function |
| EmailWorkflow.DraftAndConfirm | AI-Agent_v5.1.py:506-509 | drafting with the professional tone, then confirming, computes the stage after the name |
| EmailWorkflow.ConfirmAndSend | AI-Agent_v5.1.py:524-532 | the confirmation loop computes the confirmation stage |
| EmailWorkflow.CollectAndSend | AI-Agent_v5.1.py:537-570 | the address loop computes the address stage |
| Tools.WrappedFacts | AI-Agent_v5.py:92 | the result list is never empty, is the sentinel when nothing was found, and otherwise the hits unchanged |
| Tools.Bind | AI-Agent_v5.py:388-393 | binding `**args` succeeds exactly for an object whose keys all name parameters and which supplies every required one; each parameter then gets the value stored under its name, or its default; a non-object gets the qualified "argument after ** must be a mapping" error |
| Tools.DispatchFacts | AI-Agent_v5.py:388-395 | an unregistered name raises "Unknown function: " and the name; a generate_email call with a topic and only known keys succeeds |
| Tools.SearchDispatch | AI-Agent_v5.1.py:577-578 | a search call with a string name returns the wrapped walk result |
| Tools.ToolStep | AI-Agent_v5.1.py:645-653 | a recorded tool message carries the call's id |
| Tools.ToolMessagesFacts | AI-Agent_v5.1.py:644-653 | the tool messages exist exactly when every call succeeds, one per call, in call order, each with its call's id |
| Tools.FirstFailureEndsRound | AI-Agent_v5.1.py:644-653 | the round's exception is that of its first failing call |
| Tools.UnknownToolAborts | AI-Agent_v5.1.py:581 | an unregistered name anywhere in the calls ends the round with an exception |
| Tools.UnknownToolMessage | AI-Agent_v5.1.py:574-581 | after calls that succeed, an unregistered name ends the round with "Unknown function: " and the name |
| Tools.ToolAnswerFacts | AI-Agent_v5.1.py:627-662 | without tool calls the first answer is returned; otherwise the second request is system, user, assistant, then one tool message per call in order under its id, with no tools offered, and the round answers that completion's content or its exception; an exception of the first completion or of a tool call ends the round |
| Tools.RunToolCall | AI-Agent_v5.1.py:645-653 | one pass of the call loop gives the tool step: the decoding or tool exception, else the encoded result under the call's id |
| Tools.ToolRound | AI-Agent_v5.1.py:627-662 | the `append` loop over the tool calls computes the tool branch's answer |
| Assistant.Answered | AI-Agent_v5.1.py:676-677 | a failure is reported as "Error getting response: " and its text |
| Assistant.UnknownToolReply | AI-Agent_v5.1.py:644-677 | an unknown tool requested in the weather or search round is answered with the handler's prefix and the `ValueError` text |
| Assistant.AnswerInChat | AI-Agent_v5.1.py:614-674 | the tool-routing code computes the chat branch's answer |
| Agent.CloseTurn | AI-Agent_v5.1.py:590-601 | a close request clears the record and names the previous file, or says no document is open; it reads no input and sends nothing |
| Agent.FollowUpTurn | AI-Agent_v5.1.py:604-606 | a follow-up is answered from exactly the stored text and file name, and the record is kept |
| Agent.ToolTurn | AI-Agent_v5.1.py:617-662 | a weather query runs the tool round under the weather message, even when it is also a search; a search query under the search message |
| Agent.StateChanges | AI-Agent_v5.1.py:585-677 | the record stays consistent, changes only in the close and document branches, and is untouched by a failed read |
| Agent.SendsAndInput | AI-Agent_v5.1.py:612-613 | only the email branch sends, to a non-empty list of valid addresses; every branch leaves a suffix of the input |
| Agent.GetAssistantResponse | AI-Agent_v5.1.py:585-677 | the method's reply, input left, record and sent email are those of the turn function, with the v5.1 signature |
| AgentV5.LaterVersionExtends | AI-Agent_v5.py:399-466 | with no open document and no close or document intent, the v5.1 turn equals the v5 turn and keeps the record closed |
| AgentV5.EmailTurnV5 | AI-Agent_v5.py:401-402 | an email query enters the workflow, and only an email query sends, to valid recipients |
| AgentV5.GetAssistantResponseV5 | AI-Agent_v5.py:399-466 | the method computes the v5 turn with the v5 signature |
| Text.StripCharsFacts | AI-Agent_v5.1.py:445 | `strip` leaves a middle slice that neither starts nor ends with a stripped character, empty exactly when all characters are stripped |
| Text.StripCharsIdempotent | AI-Agent_v5.1.py:445 | stripping twice equals stripping once |
| Text.JoinSplit | AI-Agent_v5.py:151-160 | joining the parts of a split with the separator gives the text back |
| Text.SplitJoin | AI-Agent_v5.py:160 | splitting newline-free parts joined by the separator gives the parts back |
| Services.Get | AI-Agent_v5.py:140 | `dict.get`: an absent key gives the default; a present key gives a value stored under it |
| Services.GetIsLast | AI-Agent_v5.py:140 | with repeated keys, the value stored last under the key is returned, as in the dictionary `json.loads` builds |

## Left out

- Unicode case mapping and whitespace: lower-casing and `strip` cover ASCII only.
- Paths follow POSIX rules. Windows separators and drive letters are not modelled.
- ANSI colour codes and emoji are dropped from every message. Output that is only printed is not modelled.
- The model name, `temperature` and the tool schema sent with the first completion are not modelled. The completion oracle is a function of the messages and of whether tools are offered, so the same request always gets the same answer.
- The filesystem walk, drive enumeration and excluded directories are not modelled. The walk is an injected function of the name and the file/folder mode.
- The weather HTTP call, SMTP/MIME, `os.path.exists`, and the PDF and Word text extraction are injected. Joining PDF pages or Word paragraphs with newlines belongs to the extractor.
- The `query` parameter of `handle_document_workflow` is unused by the source and is omitted.
- `main`, its REPL loop and `KeyboardInterrupt` are not part of this model.
- Drafting.FromJson: a decoded subject that is not a string, and a list or dict body, are kept as their `str()` rendering (the injected `render`). The draft record therefore holds text where Python holds the value.
- Tools.CallFunction: `generate_email` arguments that are not strings are rendered with `str()`. Python's truthiness test of a non-string recipient name is approximated by "non-empty string".
- Tools.Bind and Drafting.FromJson produce their `TypeError` texts for the shapes the model distinguishes. The JSON number type is approximated by its text.
- Tools.Bind: its error texts are those of CPython 3.10 and later, where the non-mapping error names the function with its module (`__main__.`). Earlier interpreters word these messages differently.
- Services.Reply: content is always a string. A `None` completion content is not modelled, whether it is returned as is or fails `.strip()` in `generate_email`.
- Agent.Turn: it requires a consistent record, the invariant every write keeps. The source's behaviour on an active record with absent fields is therefore not modelled.
- Addresses.ValidOnly: the order of the kept parts is stated by its definition as a filter. No separate lemma states order preservation.
