# A model of the chat bot engine, its listeners and its database

This project models the parts of the repository that decide how a chat bot behaves,
and proves what they keep. `dafny verify dfyconfig.toml` checks all of it.

A chat bot is described by tables: states, transitions, triggers and sends. One
machine per connection (a conversation) interprets a table and keeps a memory map;
one more machine (the broker) passes messages between the conversations over
channels. Around them are listeners that reconnect to the agency, a key/value
database with backups, and a few text codecs.

## How the project is laid out

- `FsmTypes`, `FsmSpec`: the table, and one machine's reaction to one event as a
  function on values: search, prepare the input, build the sends, step. What a send
  *holds* between two builds is part of the state, because the engine writes what it
  builds back into its own table and reads it again.
- `Machine` (module `FsmMachine`): the engine as it is written, with event objects that
  are overwritten in place, shared message objects and a memory map. Every method is
  proved to do what its function in `FsmSpec` says, with a frame over the whole table.
- `InPlace`: building in place gives what a builder gives that only reads the table
  file, over any run; and for one build of the broker on any message, exactly when.
- `Traces`, `Failures`, `EmailIssuer`, `ReqProof`, `Proofs`: whole runs of one machine,
  which calls of a run fail, the two shipped tables that carry a safety property, and the
  two rules that judge a proof.
- `Contents`, `Picks`: what a transition says for an event, and which transition an event
  picks, for any table, in the table's own words and not in the builder's.
- `ChatSpec`, `Chat`, `Backend`: a conversation's and the broker's handlers, as
  functions and as they run, down to the references they put on channels.
- `Telling`, `Dialogue`, `ShippedChats`: what the agency is told over a conversation's whole
  life, for any table and, call by call, for the two shipped ones.
- `ChatRules`, `ChatSystem`, `Delivery`, `OwnMessages`: chat rooms, echoes, sticky sessions and
  the discarding of own messages, over every interleaving of the handlers: what is kept out,
  and that nothing else is.
- `Retry`, `Merge`, `Sleeper`: the reconnecting listeners, the merged channel, the back-off.
- `Store`, `Database`: the managed database and the one in memory, as functions and objects.
- `Base64`, `Invitation`, `FilterLink`, `Strings`: the text codecs.

In `ChatSystem` a message on a channel is a reference to an object in the sender's table,
and the receiver reads the object when it takes the reference, so a later build of the
sender shows. The tables preset no connection id in a backend send. A table is *plain* if it
runs no script and no slot that a trigger saves to can be the session register; the claims on
sessions are about plain tables, those on echoes and originators about all. Handlers are
atomic. A machine's own transient steps may arrive at any time in that model, which allows
more runs than the code has.

A script leaves its target in the TARGET register, which nothing clears, so the next script
finds it there. A table is *safe* if each of its scripts leaves TARGET empty or declared
when it finds it so, and no slot that a trigger saves to, and no accepted attribute, can be
TARGET. A table is *undemanding* if its sends can be built from any input: none is a backend
send, a hook that repeats the input, a transient send under another rule, or a credential
without preset data; and no trigger of a conversation saves a session id.

## Where the code differs from its text

The model follows the code. These are proved, each for all inputs of its kind.

- Coming back to the initial state is said to clear the memory. It does so only the first
  time (exactly when: `Traces.ClearedOnFirstHomecoming`; a run where the second return
  clears nothing: `Traces.SecondHomecomingKeeps`).
- The broker is meant to keep rooms apart. A message without a session id goes out in
  the room of an earlier one (`ChatRules.SessionlessLeak`; exactly when:
  `ChatRules.BrokerSessionID`, `InPlace.BrokerHistoryShows`).
- A conversation that saves a session id from a backend message fails on a nil message
  (whenever it picks such a transition: `Failures.SavingSessionFails`; a table that does on
  every backend message: `Failures.SessionSaverFails`).
- Initialize accepts an initial target that is no state; the first handler then fails,
  whatever it is called with (`Traces.NoInitialState`; exactly when a run is in a state:
  `Traces.RunStaysInTable`).
- A message saved into TARGET decides where the next script goes, also to no state, though
  the table declares all its targets (`Traces.SavedTargetEscapes`).
- A second proof question, after the ACK and before the proof is done, fails the shipped
  proof machine (exactly then: `ReqProof.FailsWhen`); the shipped e-mail issuer fails on
  nothing (`EmailIssuer.NeverFails`).
- A wanted list with one name twice can be neither declined nor accepted
  (`ProofRules.NeitherFires`; exactly when: `ProofRules.AcceptsWhenNotDeclined`).
- A listener that is not connected does not see a cancel: it returns only after a new
  connection (`Retry.ReturnNeedsConnection`; exactly where a cancel is seen:
  `Retry.CancelSeen`; for as long as you like: `Retry.CancelNotSeen`).
- Merging two channels ends after two closed receives, not after two closed channels
  (`Merge.SureOnlyWhenEmpty`).
- Wiping the database leaves its dirty flag alone, so a backup after it may be skipped
  (`Store.WipeStaysClean`; exactly when a backup is current: `Store.BackupsAreCurrent`).
- Placeholders that have values, in a text that does not start with what follows the "${" of
  one of them: two come out right only when nothing stands between and behind them, and
  three or more never do (exactly when: `FilterLink.ManyRight`; texts that lose a dash or
  panic: `FilterLink.DashIsLost`, `FilterLink.ThreePanic`; what any text comes out as:
  `FilterLink.AnyLinks`).

## Model

| member | source | states |
|---|---|---|
| `InPlace.SettledKept` | agency/fsm/transition.go:125-276 | whatever one build writes into the table, the send stays one of which only overwritten fields, a kept credential definition or a message header differ from the table file |
| `InPlace.BuildOnePure` | agency/fsm/transition.go:125-359 | one build from what a send holds equals the build from the table file: for conversations always, for the broker on messages with a connection id and a session id |
| `InPlace.BrokerHistoryShows` | agency/fsm/transition.go:199-230 | for the broker on any message and any table file: two builds, from the held message and from the file's, agree if and only if every id the message leaves open is filled in alike from both; and one fails where the other does not if and only if just one of them finds a connection id |
| `InPlace.BuildFromSettled` | agency/fsm/transition.go:125-175 | the build loop keeps every send of a list settled, also those it does not reach |
| `InPlace.BuildFromPure` | agency/fsm/transition.go:125-175 | the build loop gives the same memory, outcome and handed-on sends from what the list holds and from the table file |
| `InPlace.PrepareForm` | agency/fsm/transition.go:37-123 | which inputs handlers can make: a conversation's never carries a message object, the broker's carries the received one |
| `InPlace.HandleSettled` | agency/fsm/transition.go:125-175 | a handler call leaves the whole table settled |
| `InPlace.HandlePure` | agency/fsm/transition.go:125-359 | a handler call on the table as it is cannot be told from one on the table as the file has it |
| `InPlace.RunIsPure` | agency/fsm/transition.go:125-359 | over any run, the events built in place are the pure builder's |
| `Traces.TraceSettled` | agency/fsm/transition.go:125-175 | at every point of every run from Start the table is settled |
| `Traces.TraceStepIsPure` | agency/fsm/transition.go:125-359 | every step of a conversation's run from Start, and every step of the broker's that a message with both ids causes, is the pure builder's step |
| `Traces.SelectFits` | agency/fsm/event.go:71-209 | in a safe table a search that finds TARGET empty or declared leaves it so, and picks the transition's own target or a declared one |
| `Traces.SelectClosed` | agency/fsm/machine.go:205-247 | in a safe table that declares its targets, a search that finds TARGET empty or declared picks a declared target |
| `Traces.PrepareFits` | agency/fsm/transition.go:37-123 | saving an input with a trigger that cannot name TARGET leaves it empty or declared |
| `Traces.BuildFromFits` | agency/fsm/transition.go:125-175 | so does building a list whose scripts keep TARGET, and any list without an input |
| `Traces.HandleFits` | agency/client/chat/chat/chat.go:242-334 | one handler call on a safe table, for any event, leaves TARGET empty or declared |
| `Traces.TargetsFit` | agency/fsm/event.go:140-164 | at every point of every run of a safe table, TARGET in memory is empty or declared |
| `Traces.RunStaysInTable` | agency/fsm/machine.go:249-297 | a run up to any point before a crash is in declared states if and only if it starts in one, and the terminate channel has got one signal for each step into a terminate state and no other |
| `Traces.NoInitialState` | agency/fsm/machine.go:123-180 | a machine whose initial target is no state has started, but no call of it succeeds |
| `Traces.NoStateIsMissing` | agency/fsm/machine.go:249-255 | in a safe table that declares its targets, a call at any point of any run fails if and only if its search or its build does, never for want of a state |
| `Traces.SavedTargetEscapes` | agency/fsm/event.go:140-164 | a table with declared targets only: a message saved into TARGET, and then a script that accepts and leaves TARGET alone, fail if and only if the message names no state |
| `Traces.MissingState` | agency/fsm/machine.go:287-289 | a table with one undeclared target, and a status on which it fails |
| `Traces.ReportedMeansHomeBefore` | agency/fsm/machine.go:257-265 | at every point of every run the flag that blocks clearing is set if and only if a step entered the initial state before |
| `Traces.ClearedOnFirstHomecoming` | agency/fsm/machine.go:257-265 | a step of any run throws away the memory it has built exactly when it enters the initial state, the table does not keep memory and no earlier step entered that state |
| `Traces.ClearedAtMostOnce` | agency/fsm/machine.go:257-265 | of two steps of a run that enter the initial state the later one keeps the memory |
| `Traces.SecondHomecomingKeeps` | agency/fsm/machine.go:251-256 | a table and a run whose first return home clears the memory and whose second does not |
| `Failures.SearchFails` | agency/fsm/event.go:166-174 | a search fails if and only if it comes, before a transition that fires, to one for the question's protocol that has no wanted list to read |
| `Failures.FailsOnlyInSearch` | agency/fsm/transition.go:125-175 | at every point of every run of a safe, undemanding table with declared targets, a call fails if and only if its search comes to such a trigger |
| `Failures.SavingSessionFails` | agency/fsm/transition.go:78-83 | a conversation that picks a transition which saves a session id fails on the backend message |
| `Failures.SessionSaverFails` | agency/fsm/transition.go:78-83 | a table of one such transition, which fails on every backend message |
| `ProofRules.CountBothWays` | agency/fsm/event.go:195-204 | the accept rule's count of name pairs is the same from either side |
| `ProofRules.AcceptsWhenNotDeclined` | agency/fsm/event.go:178-204 | for any wanted list, what is not declined is accepted if and only if each wanted name is presented once |
| `ProofRules.NeitherFires` | agency/fsm/event.go:178-204 | a wanted list with a repeated name and a proof on which neither rule fires |
| `ProofRules.PairsAtMostPresented` | agency/fsm/event.go:195-204 | pigeonhole: with distinct wanted names the count reaches the number presented only if every presented name is wanted |
| `ProofRules.NotDeclinedIsAccepted` | agency/fsm/event.go:178-204 | with distinct wanted names: not declined means accepted, presented and wanted match one to one on name and definition, and memory holds exactly their values |
| `ProofRules.DeclinesAllOthers` | agency/fsm/event.go:178-192 | with distinct wanted names, a proof passes the decline rule if and only if it shows, in any order, each wanted attribute once and nothing else |
| `ProofRules.ExactlyOneFires` | agency/fsm/machine.go:269-277 | with decline before accept on the same data, and between them only transitions that do not answer, every proof question fires exactly one of them |
| `Picks.CopyBackendSets` | agency/fsm/event.go:94-106 | the three registers after a backend message, and that no other key changes |
| `Picks.TryFires` | agency/fsm/event.go:71-164 | when a trigger fires on an event that is no question, the memory it leaves, and the target of its script |
| `Picks.PicksFirst` | agency/fsm/machine.go:205-247 | a search picks the first transition that fires, each tried in the memory that those before it leave, and goes where the script or the table says |
| `Picks.PicksFirstOfProtocol` | agency/fsm/event.go:117-118 | a credential, proof or connection status, a hook and a step pick the first transition of their protocol if there is one, whatever its rule |
| `Contents.PrepareCarries` | agency/fsm/transition.go:37-123 | which text an event brings to the sends, and the one slot it is saved to |
| `Contents.BuildOneSays` | agency/fsm/transition.go:125-359 | for any table, history and event, what a built send of each protocol and rule holds |
| `Contents.BuildFromSays` | agency/fsm/transition.go:125-175 | each send of a list says its own, in the memory that scripts and PINs before it leave |
| `Contents.StartSays` | agency/fsm/machine.go:302-309 | what the initial sends hold |
| `Contents.TurnSays` | agency/fsm/transition.go:37-175 | the same for a whole turn: input saved, sends built, memory left |
| `EmailIssuer.PINStep` | agency/client/chat/machines.go:57-118 | while the machine waits for the PIN it moves exactly on a ready message: this is what it then says, keeps and goes to, for "reset", a wrong PIN and the right one |
| `EmailIssuer.AddressStep` | agency/client/chat/machines.go:30-56 | while it waits for the address it moves exactly on a ready message: the thanks and the PIN mail, rendered from the memory that has the address |
| `EmailIssuer.IdleStep` | agency/client/chat/machines.go:18-29 | an idle machine asks for the address exactly on a ready message |
| `EmailIssuer.IssuingStep` | agency/client/chat/machines.go:119-134 | while it waits for its credential it moves exactly on a ready issuing status: it says bye and goes home |
| `EmailIssuer.InvHolds` | agency/client/chat/machines.go:5-137 | at every point of every run that waits for a PIN, the memory is the one that the latest PIN mail was rendered from |
| `EmailIssuer.CredentialOnlyForMailedPIN` | agency/client/chat/machines.go:5-137 | every credential built in any run answers a message that repeats the PIN of the latest mail, and names the address that mail went to |
| `EmailIssuer.SafeIssuer` | agency/client/chat/machines.go:5-137 | the shipped issuer is safe and declares its targets, whatever a script would do |
| `EmailIssuer.NeverFails` | agency/client/chat/machines.go:5-137 | at no point of any run of it does a call fail, for any event that the bot hands to a machine |
| `EmailIssuer.RunReacts` | agency/client/chat/machines.go:5-137 | at every point of every run, for every event that the bot hands over: whether it fires, which transition, every event that is then held, the memory kept and the next state |
| `ReqProof.QAStep` | agency/client/chat/machines.go:178-225 | while the machine waits for the proof question: "reset", a proof that is exactly the wanted attribute, any other proof, and a proof status each do this, and nothing else moves it |
| `ReqProof.InitialStep` | agency/client/chat/machines.go:151-177 | a ready connection is greeted, a ready message starts the proof request, and nothing else moves the machine |
| `ReqProof.TrustStep` | agency/client/chat/machines.go:227-243 | after the ACK the machine moves exactly on a ready proof status, and speaks of the address in memory |
| `ReqProof.NextCmdStep` | agency/client/chat/machines.go:244-276 | afterwards "reset" goes home and every other ready message is saved and echoed |
| `ReqProof.AcceptsExactly` | agency/fsm/event.go:178-204 | the two rules, on the one wanted attribute, accept exactly its name and definition presented once and alone, and save its value |
| `ReqProof.EmailIsPresented` | agency/client/chat/machines.go:139-278 | in both states after the ACK, in every run, the e-mail in memory is the value of the demanded attribute in the latest accepted proof |
| `ReqProof.TrustOnlyPresented` | agency/client/chat/machines.go:227-276 | the words of trust, and each line echoed later, are rendered with an address that an accepted proof presented |
| `ReqProof.SafeReqProof` | agency/client/chat/machines.go:139-278 | the shipped proof machine is safe and declares its targets, whatever a script would do |
| `ReqProof.FailsWhen` | agency/client/chat/machines.go:227-243 | at every point of every run of it, and for any such event, a call fails if and only if it is a proof question between the ACK and the proof, and no list is read from an empty text |
| `ReqProof.RunReacts` | agency/client/chat/machines.go:139-278 | the same exact account of every event at every point of every run of the proof machine |
| `ChatRules.BrokerSessionID` | agency/fsm/transition.go:212-230 | the broker sends a message's own session id if and only if it has one, or neither the held message nor the memory does |
| `ChatRules.BuildKeepsSession` | agency/fsm/transition.go:125-359 | no build without a script changes the session register |
| `ChatRules.ListKeepsSession` | agency/fsm/transition.go:125-175 | all sends of a list are built in the session that the list started in |
| `ChatRules.PrepareKeepsSession` | agency/fsm/transition.go:73-93 | saving an input to a slot that is not the register leaves the session |
| `ChatRules.SelectSession` | agency/fsm/event.go:71-106 | a search for a backend message leaves the old session, or the message's; and the message's once a transition is picked |
| `ChatRules.ChatHandles` | agency/fsm/transition.go:177-276 | every backend event of a conversation goes out under its own id with the table's no-echo flag |
| `ChatRules.BrokerHandles` | agency/fsm/transition.go:177-276 | every backend event of the broker keeps the sender's connection id and no-echo, and from a plain table the session id |
| `ChatRules.SessionSticks` | agency/client/chat/chat/chat.go:250-276 | a backend message leaves a conversation's session as it is, unless the table does not keep memory and the first step home empties it |
| `ChatRules.SessionSticksOverRuns` | agency/client/chat/chat/chat.go:250-276 | no sequence of backend messages moves a conversation to another session: never if its table keeps memory or it has been home before, and otherwise not before the first return home |
| `ChatRules.SessionlessLeak` | agency/fsm/transition.go:212-230 | two messages through a broker that passes everything on: the second, in no room, goes out in the first one's room |
| `ChatSpec.BuildFromEach` | agency/fsm/transition.go:125-175 | after the build loop each send it reached was built once from what it held, and no other changed |
| `ChatSpec.HandledReaches` | agency/fsm/transition.go:169-171 | a list that is handed on has no send whose protocol lacks a handler |
| `ChatSpec.RegistersBMs` | agency/client/chat/chat/chat.go:443-478 | sending a list registers the ids of its basic messages, in order, and no other |
| `ChatSpec.OpenSendsNoBackend` | agency/client/chat/chat/chat.go:219-224 | starting a conversation sends nothing to the broker |
| `Telling.SendOneAdds` | agency/client/chat/chat/chat.go:447-476 | one send fails if and only if it lacks what its call needs, and otherwise adds the one call, step or reference that tells what it holds; an answer is yes exactly for "ACK" |
| `Telling.SendsAll` | agency/client/chat/chat/chat.go:443-478 | a list goes out if and only if every send has what its call needs |
| `Telling.SendFromAdds` | agency/client/chat/chat/chat.go:443-478 | then there is one call for each send that talks, in order, telling what it holds, and every backend send and step goes out |
| `Dialogue.StepDelivers` | agency/client/chat/chat/chat.go:250-334 | what a conversation hands to its machine: all but reports on own messages, messages of other rooms and its own echoes |
| `Dialogue.DeliverSends` | agency/client/chat/chat/chat.go:443-478 | for any table that has been through any history, the calls made for an event are what the sends of the picked transition say |
| `Dialogue.OpensAsItsTableSays` | agency/client/chat/chat/chat.go:219-224 | the calls of a start are what the initial sends say |
| `Dialogue.SaysWhatItsTableSays` | agency/client/chat/chat/chat.go:219-334 | over every life of a conversation, each move sends exactly that |
| `Dialogue.FixedAndRepeated` | agency/fsm/transition.go:331-341 | a fixed text goes out as the table has it, and an INPUT one as the user's or the broker's own text |
| `ShippedChats.IssuerTells` | agency/client/chat/machines.go:5-137 | over every life of an issuer conversation: the hello, and then at each move every call it makes, with its text, mail and credential |
| `ShippedChats.ReqTells` | agency/client/chat/machines.go:139-278 | the same for a proof machine's conversation |
| `ShippedChats.RepliesRight` | agency/client/chat/chat/chat.go:464-471 | over every life of it, a proof question is answered yes if and only if it presents exactly the wanted attribute of the demanded definition, and no otherwise |
| `ChatSystem.DeliverSteps` | agency/client/chat/chat/chat.go:443-478 | a conversation's call changes only its own messages, each to say its own id and flag, and sends only messages it just built |
| `ChatSystem.BrokerSteps` | agency/client/chat/chat/chat.go:191-198 | the broker's call changes only its own messages, each to say what the received one said |
| `ChatSystem.AfterChatKeeps` | agency/client/chat/chat/chat.go:250-334 | after a conversation's call every message object still says its true originator |
| `ChatSystem.AfterBrokerKeeps` | agency/client/chat/chat/chat.go:191-217 | after a broadcast every reference in every inbox is to a message that says its true originator |
| `ChatSystem.MoveKeeps` | agency/client/chat/chat/chat.go:125-167 | every handler of the system keeps the invariant |
| `ChatSystem.RoomsAndEchoes` | agency/client/chat/chat/chat.go:191-276 | over every interleaving, a conversation looks for a trigger for a backend message only if its session is unset or the message's, and never for a no-echo message it originated |
| `ChatSystem.TablesArePure` | agency/fsm/transition.go:125-359 | over every interleaving, what a conversation does with any event on its table as it is cannot be told from what it would do on the table file |
| `ChatSystem.BrokerTableIsPure` | agency/fsm/transition.go:177-230 | the same for the broker and a waiting message that has a session id which no trigger can take away |
| `Delivery.TakesOrDrops` | agency/client/chat/chat/chat.go:250-276 | over every interleaving, a taken message is dropped, and nothing else happens, if and only if it is of another room, or somebody on its way asked for no echo and it comes from this conversation; otherwise it is looked at once and handled like any event |
| `Delivery.CanTake` | agency/client/chat/chat/chat.go:219-240 | a waiting message can always be taken, unless it is handled and that fails |
| `Delivery.OnlyTaken` | agency/client/chat/chat/chat.go:250-276 | no other handler looks at a backend message |
| `Delivery.SendsOn` | agency/client/chat/chat/chat.go:417-429 | a call queues one reference for each backend send of the fired list, in order, tagged with its conversation, and nothing else |
| `Delivery.PassesOn` | agency/client/chat/chat/chat.go:191-217 | over every interleaving, the broker takes the message that waits longest, and if its table passes it on, every inbox gets one reference for each backend send, in order, with the originator kept and the text that came in |
| `OwnMessages.StepLast` | agency/client/chat/chat/chat.go:304-334 | one handler call changes the record by the one id it discards, or by the ids of what it sends |
| `OwnMessages.DropsAreSent` | agency/client/chat/chat/chat.go:304-309 | over every run, each sent basic message accounts for at most one discarded update; with unique server ids the record is exactly what was sent and not yet discarded |
| `OwnMessages.OurStatusesAreSeen` | agency/client/chat/chat/chat.go:300-334 | with unique server ids, updates of issued credentials and proof requests are never discarded |
| `FsmMachine.PresentsNext` | agency/fsm/event.go:182-188 | one more presented attribute changes which wanted ones are found by itself alone |
| `FsmMachine.Transition.WithNewTarget` | agency/fsm/transition.go:442-450 | a script's target replaces the target in a copy that shares the sends |
| `FsmMachine.Transition.BuildBMSend` | agency/fsm/transition.go:326-359 | writes into the send, and the memory, what the function of the old state says, or fails when it does |
| `FsmMachine.Transition.BuildHookSend` | agency/fsm/transition.go:289-324 | the same for a hook send |
| `FsmMachine.Transition.BuildBackendContent` | agency/fsm/transition.go:233-266 | the text of a backend send, per rule and input |
| `FsmMachine.Transition.BuildBackendHeader` | agency/fsm/transition.go:185-237 | connection id, session id and no-echo come from the input, the held message, the table and the machine in the code's order |
| `FsmMachine.Transition.BuildBackendSend` | agency/fsm/transition.go:177-276 | overwrites the held message object, or a new one, with the function's result; the object of the send never changes identity once it is there |
| `FsmMachine.Transition.BuildSend` | agency/fsm/transition.go:128-173 | one round of the loop for every protocol |
| `FsmMachine.Transition.BuildAt` | agency/fsm/transition.go:128-173 | building one send leaves what all other sends of the list hold |
| `FsmMachine.Transition.BuildAll` | agency/fsm/transition.go:125-175 | the loop over objects computes the recursion over values |
| `FsmMachine.Transition.BuildInTable` | agency/fsm/transition.go:125-175 | in the whole table only the slot of this transition changes |
| `FsmMachine.Transition.BuildInputEvent` | agency/fsm/transition.go:361-422 | the input of a status and what the trigger saves from it |
| `FsmMachine.Transition.SetSessionID` | agency/fsm/transition.go:78-82 | writing a session id into a received message does not show in the table |
| `FsmMachine.Transition.BuildInputFromBackendData` | agency/fsm/transition.go:37-98 | the input of a backend message, what the trigger saves, and the nil dereference of a conversation that saves a session id |
| `FsmMachine.Transition.DoBuildSendEvents` | agency/fsm/transition.go:125-175 | given a prepared input, the turn of the event is built |
| `FsmMachine.Transition.BuildSendEvents` | agency/fsm/transition.go:120-123 | builds the turn of a status |
| `FsmMachine.Transition.BuildSendEventsFromBackendData` | agency/fsm/transition.go:37-100 | builds the turn of a backend message and leaves that message as preparing did |
| `FsmMachine.Transition.BuildSendEventsFromStep` | agency/fsm/transition.go:102-109 | builds the turn of a transient step |
| `FsmMachine.Transition.BuildSendEventsFromHook` | agency/fsm/transition.go:111-118 | builds the turn of a hook |
| `FsmMachine.Transition.BuildSendAnswers` | agency/fsm/transition.go:424-430 | builds the turn of a question |
| `FsmMachine.Machine.constructor` | agency/fsm/machine.go:60-75 | a machine as parsed, before any wiring |
| `FsmMachine.Machine.NewSends` | agency/fsm/machine.go:141-158 | sends of one transition; fails exactly on a credential send without its Issuing data, which the initial transition does not check |
| `FsmMachine.Machine.NewState` | agency/fsm/machine.go:131-159 | the transitions of one state, wired to the machine |
| `FsmMachine.Machine.Initialize` | agency/fsm/machine.go:123-180 | succeeds exactly when all credential sends of the states have Issuing data, and then the table is wired, holds what the file presets and the machine is in its initial state if that is declared |
| `FsmMachine.Machine.Start` | agency/fsm/machine.go:302-309 | builds the initial sends without an input and leaves the table of states |
| `FsmMachine.Machine.ExecLua` | agency/fsm/event.go:140-164 | the script's output, target and verdict, and the memory it leaves |
| `FsmMachine.Machine.CopyBackendDataValuesToMemory` | agency/fsm/event.go:94-106 | the non-empty header fields go to the three registers |
| `FsmMachine.Machine.EventTriggersByBackendData` | agency/fsm/event.go:71-92 | the verdict of one trigger on a backend message, and the memory it leaves also when it does not fire |
| `FsmMachine.Machine.EventTriggers` | agency/fsm/event.go:112-138 | the verdict of one trigger on a status |
| `FsmMachine.Machine.NotAcceptValues` | agency/fsm/event.go:178-193 | the marking loops decide exactly: another number of attributes, or a wanted one that is not presented |
| `FsmMachine.Machine.AcceptAndInputValues` | agency/fsm/event.go:194-204 | the counting loops decide by the number of name pairs and save values as they go |
| `FsmMachine.Machine.EventAnswers` | agency/fsm/event.go:166-208 | the verdict on a proof question, and when it fails |
| `FsmMachine.Machine.Triggers` | agency/fsm/machine.go:205-214 | picks the first transition that fires, with a script's target |
| `FsmMachine.Machine.TriggersByBackendData` | agency/fsm/machine.go:237-247 | the same for a backend message |
| `FsmMachine.Machine.TriggersByHook` | agency/fsm/machine.go:218-226 | the first hook transition |
| `FsmMachine.Machine.TriggersByStep` | agency/fsm/machine.go:228-235 | the first transient transition, whatever its rule |
| `FsmMachine.Machine.Answers` | agency/fsm/machine.go:269-277 | picks the first transition that answers, or fails |
| `FsmMachine.Machine.Step` | agency/fsm/machine.go:249-267 | the new state, the one clearing of the memory, and the terminate signal |
| `FsmMachine.Machine.CheckTerm` | agency/fsm/machine.go:287-297 | one signal for a terminate state |
| `Chat.HandledConnIDs` | agency/client/chat/chat/chat.go:417-423 | a built backend send always has a connection id, so the sender never fills one in |
| `Chat.DeliverPicked` | agency/fsm/transition.go:442-450 | a handler that goes on with the copied transition does what the function says of the table's |
| `Chat.Conversation.SetLastProtocolID` | agency/client/chat/chat/chat.go:436-441 | adds one id to the record |
| `Chat.Conversation.IsOursAndRm` | agency/client/chat/chat/chat.go:480-486 | says whether the id is on record and takes it off |
| `Chat.Conversation.SendEvent` | agency/client/chat/chat/chat.go:447-476 | one round of the send loop: the call, the id it registers, or the reference it sends if there is a broker |
| `Chat.Conversation.Send` | agency/client/chat/chat/chat.go:443-478 | the loop sends what the function says, in order, on top of what was sent before |
| `Chat.Conversation.Open` | agency/client/chat/chat/chat.go:219-224 | wiring, starting and sending the start's events |
| `Chat.Conversation.StepReceived` | agency/client/chat/chat/chat.go:242-248 | machine, table, record and channels after the handler are those of the function of the old state |
| `Chat.Conversation.HookReceived` | agency/client/chat/chat/chat.go:278-284 | the same for a hook |
| `Chat.Conversation.QuestionReceived` | agency/client/chat/chat/chat.go:286-298 | the same for a question; only proof questions reach the machine |
| `Chat.Conversation.StatusReceived` | agency/client/chat/chat/chat.go:300-334 | the same for a status: own ones are dropped once, unready ones are only searched for |
| `Chat.Conversation.FillConnID` | agency/client/chat/chat/chat.go:252-258 | a missing id is filled into the shared object, which leaves the table |
| `Chat.Conversation.BackendReceived` | agency/client/chat/chat/chat.go:250-276 | the same for a backend message, with both filters |
| `BackendService.BackendBot.SendBackendData` | agency/client/chat/chat/chat.go:212-217 | every conversation gets the reference |
| `BackendService.BackendBot.Send` | agency/client/chat/chat/chat.go:200-210 | every conversation gets all backend events of the list, in order, and no other |
| `BackendService.BackendBot.BackendReceived` | agency/client/chat/chat/chat.go:191-198 | machine, table and channels after the broker's handler are those of the function of the old state |
| `BackendService.HandledMessages` | agency/client/chat/chat/chat.go:200-210 | the broker never broadcasts a missing message |
| `Retry.MoveKeeps` | agency/client/client.go:488-538 | every step of loop, transporter, reader and cancel keeps order and conservation |
| `Retry.NothingIsLost` | agency/client/client.go:670-696 | at every point of every run, delivered items and the at most two on the way are what the connections have received without keep-alives; between connections nothing is on the way; nothing follows a close |
| `Retry.ReaderGetsAll` | agency/client/client.go:670-696 | the same in terms of what the streams delivered, move by move; and one sleep for each failed connection or stream |
| `Retry.WhatEndsASelect` | agency/client/client.go:515-533 | the loop takes a close only after the end of its stream, an error only after its failure, and a cancel only after one |
| `Retry.SelectFollows` | agency/client/client.go:515-533 | and in its select it can do each of the three exactly then |
| `Retry.ClosedOnlyAfterEnd` | agency/client/client.go:516-532 | the output is closed only after the last stream has ended, or a cancel |
| `Retry.FailedNeedsConnection` | agency/client/client.go:521-525 | once a stream has failed, a loop that is not cancelled returns only after a new connection |
| `Retry.CleanEnd` | agency/client/client.go:527-533 | a channel closed at the end of a stream has delivered everything |
| `Retry.CancelledEnd` | agency/client/client.go:518-521 | a cancel loses at most the one item its transporter still offers |
| `Retry.NoSelectWithoutConnection` | agency/client/client.go:507-514 | over any stretch of a run without a new connection, a loop outside its select stays there and sends and closes nothing, cancelled or not |
| `Retry.ReturnNeedsConnection` | agency/client/client.go:507-521 | between being outside its select and returning, the loop has made a connection |
| `Retry.CancelSeen` | agency/client/client.go:516-521 | a cancel can be taken if and only if the loop is in its select, and from every other place the moves that lead to a return |
| `Retry.CancelNotSeen` | agency/client/client.go:507-514 | for any number of rounds there is a cancelled run that still sleeps and retries |
| `Merge.MergeChannels` | agency/client/client.go:423-459 | the output interleaves prefixes of both channels, and closes exactly at the second closed receive |
| `Merge.CompleteWhen` | agency/client/client.go:433-454 | at the close at least one channel has reported closed, and all of each that has is delivered |
| `Merge.StatusesOnly` | agency/client/client.go:433-440 | for any inputs there is a run that closes the output and delivers no question |
| `Merge.QuestionsOnly` | agency/client/client.go:446-453 | and one that delivers no status |
| `Merge.SureOnlyWhenEmpty` | agency/client/client.go:423-459 | every run that closes delivers everything if and only if there is nothing to deliver |
| `Sleepers.Sleeper.constructor` | tools/sleeper/sleeper.go:19-24 | a zero floor becomes ten seconds |
| `Sleepers.Sleeper.Sleep` | tools/sleeper/sleeper.go:26-35 | the n-th call waits the floor and 2^min(n,12) seconds, and exactly so if that fits the word |
| `Sleepers.WaitsGrow` | tools/sleeper/sleeper.go:26-35 | waits never get shorter and never exceed the floor by more than 4096 seconds |
| `Sleepers.Totals` | tools/sleeper/sleeper.go:26-35 | closed form of what n waits take together |
| `Sleepers.AllWaitsFit` | tools/sleeper/sleeper.go:26-35 | no wait leaves 64 bits if and only if the floor is at most the largest word less 4096 seconds |
| `Store.BagWithout` | crypto/db/db.go:311-327 | the values of a bucket do not depend on the order they are taken in |
| `Store.StepSame` | crypto/db/db.go:56-69 | one call gives the same result on both databases and leaves the same map, if and only if it is no add that Bolt refuses |
| `Store.OneMap` | crypto/db/mem.go:44-116 | over every sequence of calls on configured buckets, with closing and reopening, both give the same results if and only if Bolt takes every add |
| `Store.OneMapFromNew` | crypto/db/mem.go:28-42 | the same for a new managed database and a new one in memory |
| `Store.BackupStep` | crypto/db/db.go:376-401 | an open database is dirty, a failed backup leaves the flag, and a clean file changes only by a wipe |
| `Store.BackupsAreCurrent` | crypto/db/db.go:376-423 | at every point of every run, a clean database that was backed up is its last backup if and only if it was not wiped since |
| `Store.WipeStaysClean` | crypto/db/db.go:410-423 | after a backup and a wipe the next backup is skipped |
| `Store.GetsWhatWasPut` | crypto/db/db.go:190-276 | after an add that is done, and any calls on other keys with any answers of the file system but no wipe, a get that succeeds finds the value, and one with nothing against it succeeds; after a removal it finds none |
| `Store.BackupHolds` | crypto/db/db.go:376-401 | a backup of a dirty database, if all goes well, is taken and has what the database has |
| `Store.GetsAllValues` | crypto/db/db.go:311-327 | two transforms f and g give g(f(v)) for each stored v and nothing else, as many values as keys |
| `Store.OffRefuses` | crypto/db/db.go:56-60 | a database that is off refuses every call but turning on and closing, and stays as it is |
| `Database.CopyFits` | crypto/db/db.go:163 | a found value comes back whole if and only if the receiver's buffer has its length |
| `Database.Copy` | crypto/db/db.go:163 | overwrites the common part in place and leaves the rest |
| `Database.Data.Set` | crypto/db/db.go:158-171 | buffer and result after a value came in, for each combination of filters |
| `Database.Transform` | crypto/db/db.go:317-320 | the transforms apply first to last |
| `Database.AllValues` | crypto/db/db.go:316-323 | the loop collects each value once |
| `Database.Mgd.Open` | crypto/db/db.go:119-136 | makes the file and the missing buckets in one transaction, or neither buckets nor an unopened file on failure |
| `Database.Mgd.Operate` | crypto/db/db.go:56-69 | refuses when off, marks dirty before it opens |
| `Database.Mgd.AddKeyValueToBucket` | crypto/db/db.go:190-203 | file, flags and result of an add |
| `Database.Mgd.RmKeyValueFromBucket` | crypto/db/db.go:213-226 | file, flags and result of a removal |
| `Database.Mgd.GetKeyValueFromBucket` | crypto/db/db.go:250-276 | what is found, and what the receiver's buffer then says |
| `Database.Mgd.GetAllValuesFromBucket` | crypto/db/db.go:300-329 | the transformed values, each as often as it occurs |
| `Database.Mgd.Backup` | crypto/db/db.go:376-401 | when a copy is taken, skipped or fails, and what each leaves |
| `Database.Mgd.Wipe` | crypto/db/db.go:410-423 | closes and removes the file, without touching the dirty flag |
| `Database.Mgd.Close` | crypto/db/db.go:434-445 | closes if open, whatever the status says |
| `Database.Mgd.SetStatusFn` | crypto/db/db.go:447-451 | turns the database on or off and changes nothing else |
| `Database.MemDB.AddKeyValueToBucket` | crypto/db/mem.go:44-55 | the map after an add, for any key |
| `Database.MemDB.RmKeyValueFromBucket` | crypto/db/mem.go:57-68 | the map after a removal |
| `Database.MemDB.GetKeyValueFromBucket` | crypto/db/mem.go:70-91 | what is found, and what the receiver's buffer then says |
| `Database.MemDB.GetAllValuesFromBucket` | crypto/db/mem.go:93-116 | the transformed values, each as often as it occurs |
| `Database.MemDB.SetStatusFn` | crypto/db/mem.go:139-141 | the same in memory |
| `Base64.GroupRoundTrip` | std/didexchange/invitation/translate.go:21-27 | one to three bytes come back from their digits |
| `Base64.CleanRoundTrip` | std/didexchange/invitation/translate.go:21-27 | each decoder of section 5 of RFC 4648 reads its own encoding of every byte string |
| `Base64.UnpaddedAsPadded` | std/didexchange/invitation/translate.go:21-27 | the padded decoder refuses an unpadded text unless the bytes fill their groups, so trying it first is safe |
| `Base64.DecodesBoth` | std/didexchange/invitation/translate.go:21-27 | decodeB64 inverts both encodings of every byte string |
| `Invitations.QueryReads` | std/didexchange/invitation/translate.go:65-76 | the query of a built URL parses to its one pair |
| `Invitations.TranslateBuilt` | std/didexchange/invitation/translate.go:55-78 | reading a built URL reads the JSON in it, whichever key it came under |
| `Invitations.BuiltURL` | std/didexchange/invitation/v0.go:50-57 | the URL of each version, key included |
| `Invitations.JSONReads` | std/didexchange/invitation/translate.go:58-63 | a text that is no URL is read as the JSON it is, and gives the invitation if and only if its type name is the one read for its version |
| `Invitations.PairsRead` | std/didexchange/invitation/translate.go:65 | a query of any plain pairs parses to their values by key, in order |
| `Invitations.FoundAmongOthers` | std/didexchange/invitation/translate.go:65-78 | of any plain pairs the first `c_i` is read, or else the first `oob`, padded or not; with neither there is no invitation |
| `Invitations.RoundTrip` | std/didexchange/invitation/v0.go:50-57 | Translate after Build gives an equal invitation of the same version if and only if its type name is the one read for that version; the second form is std/didexchange/invitation/v1.go:69-75 |
| `FilterLink.SplitJoin` | agency/fsm/fsm.go:264 | splitting a text loses nothing but its separators |
| `FilterLink.FilterLinks` | agency/fsm/fsm.go:260-291 | the nested loops compute the function, with the slice that is out of range as an outcome |
| `FilterLink.NoLink` | agency/fsm/fsm.go:260-291 | a text without a placeholder stays as it is |
| `FilterLink.OneLink` | agency/fsm/fsm.go:260-291 | one placeholder with a value comes out right, with any text around it, if and only if the text does not start with what follows its own opening, or the value is the name with its brace |
| `FilterLink.ManyLinks` | agency/fsm/fsm.go:260-291 | with n placeholders: what is kept, what is dropped, and exactly when it panics |
| `FilterLink.AnyLinks` | agency/fsm/fsm.go:260-291 | what any text comes out as: unchanged, with each part's value or, for a part that is how the text starts, its name, or a panic |
| `FilterLink.TwoLinks` | agency/fsm/fsm.go:260-291 | two placeholders with values, in a text that does not start with what follows one of them, come out right if and only if nothing stands between or behind them |
| `FilterLink.ManyRight` | agency/fsm/fsm.go:260-291 | any number of placeholders with values, in such a text, come out right if and only if there is one, or there are two with no text between or behind them |
| `FilterLink.BetweenIsLost` | agency/fsm/fsm.go:277-289 | a text that is two placeholders and any text between them comes out as the two values |
| `FilterLink.DashIsLost` | agency/fsm/fsm.go:277-289 | a text of two placeholders with a dash between them that comes out without it |
| `FilterLink.ThreeInARowPanic` | agency/fsm/fsm.go:278-280 | three placeholders in a row panic, whatever their names |
| `FilterLink.ThreePanic` | agency/fsm/fsm.go:278-280 | one such text |
| `FilterLink.StartsLikeItsLink` | agency/fsm/fsm.go:266-267 | a text that starts like its own placeholder keeps the name |

## Left out

- Liveness: deadlock freedom, exactly-once delivery and termination on cancel do not hold for this code and are not claimed.
- Data races: handlers are atomic steps; that a conversation and the broker may touch one message object at the same time is not modelled.
- Transient channel: its capacity of one, and the blocking of a machine that sends itself two steps, are not modelled; steps may come at any time instead.
- Running without a broker: a conversation's handlers cover it, but `ChatSystem` always has one.
- That Target, Rule, Data and WantStatus of a table never change: they are constants of the model, so this is not a theorem.
- `FsmMachine.Machine.ExecLua`: the interpreter's own variables, which survive from one script to the next, are not modelled; a script is a function of its text and the memory.
- `FsmMachine.Machine.CheckTerm`: the case of no terminate channel is not modelled, because the bot starts every machine with one.
- `Database.Mgd.GetAllValuesFromBucket`: that values which no transform has copied belong to Bolt once the transaction is over is not modelled; values are values.
- `ConversationBackendChan` and the hook function: entry points from outside, part of the environment.
- The Lua interpreter, the template engine, Sprintf and the JSON readers: functions of their inputs; scripts are functions on the memory. An e-mail text that is no JSON is whatever the reader makes of it.
- The PIN and the server's protocol ids: parameters of each call.
- Environment variables and files behind placeholders: the table is the one after they are filled in, and FilterLink takes the lookup as a function.
- A table without an initial transition, and one without any state: Initialize's errors for them add nothing.
- A message object preset in a send that is no backend send: it is never read, and the heap model's start excludes it.
- The Protocol field of backend messages: it is never read.
- Wording of the two shipped tables: parameters, so the theorems hold for any wording.
- `Store.OneMap`: bucket names are non-empty and files and transactions do not fail in the comparison, because the database in memory cannot fail.
- The status function of the database: constant during one call.
- Bolt: an atomic map of buckets with its limits on keys and values; its files, pages and locks are not part of this model.
- GracefulStop, BackupTicker and the shared instance: loops over the methods that are modelled.
- The URL parser: a function that finds the query of a built URL; trimming and the query parser are modelled.
- `Invitations.RoundTrip`: that the JSON codec reads back what it wrote is assumed of the given invitation.
- Texts are sequences of characters, not of UTF-8 bytes.
- gRPC, TLS, HTTP, command lines, pairwise request builders, JWT, AES-GCM, base58 and did:key codecs, PlantUML output: plumbing without a hard property.
