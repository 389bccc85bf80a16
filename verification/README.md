# Dasher session core and dynamic button filter

This project models two parts of the Dasher text-entry engine:

- the session orchestrator `CDasherInterfaceBase`;
- the dynamic input filter `CDynamicFilter`, driven by two buttons: button 1 steers and button 2 backs off.

The project is written in Dafny and its properties are proved.

**The orchestrator** (`session_interface.dfy`) is a class. It has these fields:

- the trailing edit context;
- the training-text buffer;
- the loaded alphabet, the live navigation model and whether a view exists;
- a log `calls` of the requests it makes of its collaborators, in order.

Its collaborators are the navigation model, the view, the user log, the edit box, the screen and the training-file writer. The shared parameter store (`parameters.dfy`) is a second class with one field per parameter the core reads or writes. Its methods cover pausing, halting, resuming and starting a session, the per-frame step, model, view and alphabet switches, setting the context from outside, and the parameter/edit/control event handler.

Each method's `modifies` clause names the fields it may change. Its contract gives their new values, and gives the requests it makes, in order, as entries of the call log. What a collaborator does with a request is outside the model. Lemmas prove:

- every model built during an alphabet switch is built under the training lock;
- the model advances in a frame exactly when it exists and the session is neither paused nor training;
- flushing the training buffer loses no text.

**The pure string operations** (`edit_text.dfy`) cover:

- the 20-character context window;
- deletion with `std::string` unsigned size arithmetic;
- the partial flush;
- the six-character comparison `SetContext` uses to decide whether a context is new.

Their lemmas give a delete/insert round trip, and show both what the six-character comparison detects and what it misses.

**The filter** (`switch_filter.dfy`) is a class over the same store and orchestrator. Each timer tick it computes a point. The pure integer interpolation it uses (`interpolation.dfy`, C++ truncating division) is proved to:

- start at the canvas centre;
- reach the target exactly at the end of the 1000-unit window;
- stay between centre and target;
- move monotonically towards the target.

Where the source dereferences something without checking it, the model states the condition as a precondition:

- the view in `DrawMousePos`;
- the alphabet in `GetAlphabetOrientation` and `CreateDasherModel`.

## Model

| member | source | states |
|---|---|---|
| EditText.Suffix | Src/DasherCore/DasherInterfaceBase.cpp:822 | the trailing window has the requested length (or the whole string when shorter) and is a true suffix: the string is some prefix followed by it |
| EditText.Prefix | Src/DasherCore/DasherInterfaceBase.cpp:219-221 | `substr(0, n)`: the first n characters, or the whole string when n reaches past the end, and the string continues from it |
| EditText.SizeSub | Src/DasherCore/DasherInterfaceBase.cpp:219-221 | `size_t` subtraction: the plain difference when it is not negative, otherwise the difference plus 2^64 |
| EditText.DeleteTail | Src/DasherCore/DasherInterfaceBase.cpp:219-221 | `s.substr(0, s.size() - n)` gives a prefix of the string |
| EditText.DeleteTailSpec | Src/DasherCore/DasherInterfaceBase.cpp:219-221 | deleting n characters drops exactly the last n when n fits; when n exceeds the length the unsigned size wraps and the string comes back unchanged |
| EditText.DeleteUndoesAppend | Src/DasherCore/DasherInterfaceBase.cpp:211-221 | deleting as many characters as were just appended restores the string (the training buffer's insert/delete round trip) |
| EditText.InsertIntoContext | Src/DasherCore/DasherInterfaceBase.cpp:211-214 | the context after an insert holds at most 20 characters; it is the last characters of the old context followed by the text, i.e. a suffix of the plain concatenation, and is that concatenation while it fits; it always ends with the inserted text when that is at most 20 long |
| EditText.ContextInsertDeleteRoundTrip | Src/DasherCore/DasherInterfaceBase.cpp:211-221 | while the context has not been trimmed, a delete edit of the same text undoes an insert edit |
| EditText.PartialFlush | Src/DasherCore/DasherInterfaceBase.cpp:248-249 | a partial flush writes exactly 100 characters and keeps the rest; written followed by kept is the old buffer |
| EditText.ContextChanged | Src/DasherCore/DasherInterfaceBase.cpp:818-822 | a context counts as new only if it differs from the current one (the converse fails, see SameWindowIsNoChange) |
| EditText.ShortContextsCompareWhole | Src/DasherCore/DasherInterfaceBase.cpp:818-822 | contexts of at most six characters are a change exactly when they differ |
| EditText.SameWindowIsNoChange | Src/DasherCore/DasherInterfaceBase.cpp:818-822 | two contexts ending in the same six characters are never treated as a change, whatever precedes them |
| EditText.DifferenceInWindowIsChange | Src/DasherCore/DasherInterfaceBase.cpp:822 | any differing character among the last six of two equally long contexts is detected as a change |
| EditText.EarlyEditIsMissed | Src/DasherCore/DasherInterfaceBase.cpp:822 | example of SameWindowIsNoChange: "abcdefg" replaced by "Xbcdefg" is not treated as a new context |
| Interpolation.TruncDiv | Src/DasherCore/DynamicFilter.cpp:75-76 | C++ integer division by a positive divisor: the quotient is rounded towards zero from either side |
| Interpolation.Interpolate | Src/DasherCore/DynamicFilter.cpp:75-76 | the interpolation, with C++ truncating division, starts at the centre 2048 at zero elapsed time and equals the target after exactly 1000 units, so the switch to the raw target is continuous |
| Interpolation.InterpolateBetween | Src/DasherCore/DynamicFilter.cpp:75-76 | within the window the coordinate lies between the centre and the target |
| Interpolation.InterpolateMovesTowardsTarget | Src/DasherCore/DynamicFilter.cpp:75-76 | within the window the coordinate moves monotonically towards the target as time passes |
| Interpolation.InterpolateMidpointStrict | Src/DasherCore/DynamicFilter.cpp:75-76 | half way through the window a target at least two units from the centre gives a coordinate strictly between centre and target |
| Interpolation.InterpolateMidpointIsAverage | Src/DasherCore/DynamicFilter.cpp:75-76 | half way through the window the coordinate is the truncated average of target and centre |
| Interpolation.NegativeElapsedLeavesRange | Src/DasherCore/DynamicFilter.cpp:70-76 | the formula is unguarded against a press time later than the tick: 1000 units early it yields 3996 for target 100 |
| SwitchFilter.PressStartsAtCentre | Src/DasherCore/DynamicFilter.cpp:70-79 | right after a press the filter's point is (2048, 2048) for either target |
| SwitchFilter.WindowEndReachesTarget | Src/DasherCore/DynamicFilter.cpp:70-79 | the point at the window's last unit and one unit later is the target itself |
| SwitchFilter.TargetPoint | Src/DasherCore/DynamicFilter.cpp:9-16 | target 0 is the point (100, 100) and target 1 the point (100, 3996) |
| SwitchFilter.FrameTarget | Src/DasherCore/DynamicFilter.cpp:63-81 | back-off wins over everything; otherwise the steady style, a dynamics not yet started, or more than 1000 units since the press give exactly the target point, and inside the window the point is the interpolation of each coordinate; without back-off and with the tick not before the press, the point lies in the box x in [100, 2048], y in [100, 3996] |
| SwitchFilter.FrameTargetApproaches | Src/DasherCore/DynamicFilter.cpp:74-77 | during the window x never increases, and y moves towards the chosen target (down for target 0, up for target 1) |
| SwitchFilter.FrameTargetMidwayIsStrict | Src/DasherCore/DynamicFilter.cpp:74-77 | half way through the window both coordinates are strictly between centre and target: the point is (1074, 1074) for target 0 and (1074, 3022) for target 1 |
| SwitchFilter.EarlyTickLeavesBox | Src/DasherCore/DynamicFilter.cpp:70-79 | a tick 1000 units before the press time puts x at 3996, outside the box the filter otherwise keeps to |
| SwitchFilter.DynamicFilter.constructor | Src/DasherCore/DynamicFilter.cpp:5-24 | target 0, dynamics not started, style 1 exactly when the pulsing option is set |
| SwitchFilter.DynamicFilter.Timer | Src/DasherCore/DynamicFilter.cpp:63-81 | the point handed to the model is FrameTarget of the filter's state (back-off point, target, or interpolation, by the source's precedence); without back-off and with time not running backwards it lies in the target box; whenever it interpolates, the key time is the time of a real press |
| SwitchFilter.DynamicFilter.KeyDown | Src/DasherCore/DynamicFilter.cpp:83-99 | button 1 while paused resumes the session (the orchestrator's Unpause calls) and records the time, leaving the target; button 1 while running flips the target, starts the dynamics and records the time; button 2 sets back-off; other buttons change nothing; the filter invariant is kept |
| SwitchFilter.DynamicFilter.KeyUp | Src/DasherCore/DynamicFilter.cpp:101-105 | releasing button 2 clears back-off; other releases leave it |
| SwitchFilter.DynamicFilter.HandleEvent | Src/DasherCore/DynamicFilter.cpp:109-124 | either button-style notification re-reads the pulsing option into the style; every other event leaves it |
| SwitchFilter.DynamicFilter.StyleFromPulsing | Src/DasherCore/DynamicFilter.cpp:114-121 | the style becomes 1 exactly when the pulsing option is set |
| SessionInterface.CreationUnderLock | Src/DasherCore/DasherInterfaceBase.cpp:276-290 | a model-creation sequence built with the training lock held is recognised as created under the lock, and one built without it is not |
| SessionInterface.DasherInterface.constructor | Src/DasherCore/DasherInterfaceBase.cpp:54-69 | the context starts as ". ", the buffer empty, no alphabet, model or view, nothing requested |
| SessionInterface.DasherInterface.WriteTrainFileFull | Src/DasherCore/DasherInterfaceBase.cpp:239-242 | the whole buffer is written in one request and the buffer emptied; written text plus buffer is conserved |
| SessionInterface.DasherInterface.WriteTrainFilePartial | Src/DasherCore/DasherInterfaceBase.cpp:244-250 | the first 100 characters are written and the rest kept; written text plus buffer is conserved; needs at least 100 buffered characters |
| SessionInterface.DasherInterface.PauseAt | Src/DasherCore/DasherInterfaceBase.cpp:311-326 | paused, redraw requested, the mouse-position box shown in mouse-position mode, then a stop event and the user log stopped |
| SessionInterface.DasherInterface.Halt | Src/DasherCore/DasherInterfaceBase.cpp:328-339 | paused and the box shown as PauseAt does, but no redraw and no stop event; only the model is halted |
| SessionInterface.DasherInterface.Unpause | Src/DasherCore/DasherInterfaceBase.cpp:341-361 | unpaused, box hidden (-1), and in order: frame rate reset, view sums reset, start event, information count reset, user log started |
| SessionInterface.DasherInterface.Start | Src/DasherCore/DasherInterfaceBase.cpp:294-309 | a start always leaves the session paused with a redraw requested, after the pause sequence restarts the model and resets the view including its auto-offset |
| SessionInterface.DasherInterface.Redraw | Src/DasherCore/DasherInterfaceBase.cpp:363-369 | the view is redrawn exactly when it exists |
| SessionInterface.DasherInterface.TapOn | Src/DasherCore/DasherInterfaceBase.cpp:418-445 | the view is tapped when it exists, then the model steps when it exists |
| SessionInterface.DasherInterface.NewFrame | Src/DasherCore/DasherInterfaceBase.cpp:385-416 | the pending redraw is served and cleared; the frame either draws the mouse position (paused or training) or steps; in mouse-position mode the view may resume the session, which then unpauses and hides the box |
| SessionInterface.DasherInterface.ModelStepsOnlyWhenRunning | Src/DasherCore/DasherInterfaceBase.cpp:394-399 | a frame steps the model exactly when a model exists and the frame is neither paused nor training |
| SessionInterface.DasherInterface.ServeRedrawRequest | Src/DasherCore/DasherInterfaceBase.cpp:389-392 | a requested redraw is carried out once and the request cleared |
| SessionInterface.DasherInterface.StepOrDrawMousePos | Src/DasherCore/DasherInterfaceBase.cpp:394-399 | paused or training frames only draw the mouse position; others tap and step |
| SessionInterface.DasherInterface.DrawMousePos | Src/DasherCore/DasherInterfaceBase.cpp:455-461 | draws through the view, which the source does not check for |
| SessionInterface.DasherInterface.StartOnMouse | Src/DasherCore/DasherInterfaceBase.cpp:403-407 | the session resumes exactly when mouse-position mode is on, a view exists and it reports the start |
| SessionInterface.DasherInterface.ChangeView | Src/DasherCore/DasherInterfaceBase.cpp:607-619 | the view option is recorded; a view is (re)built exactly when a screen and a model exist |
| SessionInterface.DasherInterface.CreateDasherModel | Src/DasherCore/DasherInterfaceBase.cpp:264-292 | with no language model selected nothing happens; otherwise the old model is deleted, a new one created (recording whether the training lock is held), trained from the system then the user training file, and the view rebuilt when one is selected and a screen exists |
| SessionInterface.DasherInterface.InstallAlphabet | Src/DasherCore/DasherInterfaceBase.cpp:490-536 | the buffer is flushed first, the lock taken, the new alphabet and its options installed, edit box and screen rebound, and the old model discarded |
| SessionInterface.DasherInterface.ApplyAlphabetOptions | Src/DasherCore/DasherInterfaceBase.cpp:514-521 | the training file option follows the alphabet; the game-mode file only when the alphabet names one |
| SessionInterface.DasherInterface.ChangeAlphabet | Src/DasherCore/DasherInterfaceBase.cpp:479-548 | the buffer ends empty; the catalogue's alphabet (or its fallback) is loaded with its options and palette; the model is rebuilt under the lock; the lock is released; the session ends paused; the call log is install, creation under the lock, then start |
| SessionInterface.DasherInterface.RebuildAndStart | Src/DasherCore/DasherInterfaceBase.cpp:537-546 | the model is built while the lock is held, the palette adopted, the lock released, then a start |
| SessionInterface.DasherInterface.AdoptPalette | Src/DasherCore/DasherInterfaceBase.cpp:539-542 | the colour scheme becomes the alphabet's palette exactly when it names one and palette changes are allowed |
| SessionInterface.DasherInterface.AlphabetSwitchCreatesUnderLock | Src/DasherCore/DasherInterfaceBase.cpp:494-546 | every model created in an alphabet switch's call log was created with the training lock held |
| SessionInterface.WrittenText | Src/DasherCore/DasherInterfaceBase.cpp:239-249 | the text the training file receives from a call log; a log that opens with a write opens the file with that text |
| SessionInterface.WrittenTextConcat | Src/DasherCore/DasherInterfaceBase.cpp:239-249 | the text written to the training file by a sequence of requests is the text of its parts, in order |
| SessionInterface.NoWritesWriteNothing | Src/DasherCore/DasherInterfaceBase.cpp:239-249 | a call log with no training-file request writes nothing |
| SessionInterface.FlushThenNoWrites | Src/DasherCore/DasherInterfaceBase.cpp:239-242 | a full flush followed by requests that never write writes exactly the flushed buffer |
| SessionInterface.DasherInterface.InstallWritesFlushed | Src/DasherCore/DasherInterfaceBase.cpp:490-536 | the install step of an alphabet switch writes exactly the buffer it flushed |
| SessionInterface.DasherInterface.CreationWritesNothing | Src/DasherCore/DasherInterfaceBase.cpp:264-292 | building, training and attaching a view to a model never writes to the training file |
| SessionInterface.DasherInterface.AlphabetSwitchWritesOnlyTheBuffer | Src/DasherCore/DasherInterfaceBase.cpp:479-548 | over a whole alphabet switch the training file receives the old buffer and nothing else; building, training and starting never write |
| SessionInterface.DasherInterface.ChangeLanguageModel | Src/DasherCore/DasherInterfaceBase.cpp:573-588 | re-selecting the current model changes nothing; a new id is recorded, and only with an alphabet loaded is the model rebuilt (for an id other than -1: the old model deleted, the new one created and trained, a view built when one is selected and a screen exists) and a paused session started |
| SessionInterface.DasherInterface.RebuildModelAndStart | Src/DasherCore/DasherInterfaceBase.cpp:579-584 | the model is rebuilt for the selected language model, then a paused session is started |
| SessionInterface.DasherInterface.SetContext | Src/DasherCore/DasherInterfaceBase.cpp:809-836 | a context whose last six characters match is ignored entirely; otherwise it replaces the context, a context-sensitive model is told and the session paused, and the training buffer is flushed |
| SessionInterface.DasherInterface.GetNumberSymbols | Src/DasherCore/DasherInterfaceBase.cpp:621-626 | the alphabet's symbol count, or 0 without an alphabet |
| SessionInterface.DasherInterface.GetDisplayText | Src/DasherCore/DasherInterfaceBase.cpp:628-633 | the symbol's display text, or the empty string without an alphabet |
| SessionInterface.DasherInterface.GetEditText | Src/DasherCore/DasherInterfaceBase.cpp:635-640 | the symbol's edit text, or the empty string without an alphabet |
| SessionInterface.DasherInterface.GetTextColour | Src/DasherCore/DasherInterfaceBase.cpp:642-647 | the symbol's text colour, or colour 4 without an alphabet |
| SessionInterface.DasherInterface.InterfaceEventHandler | Src/DasherCore/DasherInterfaceBase.cpp:141-237 | a parameter notification has its arm's full effect (ParameterEffect), leaves the context and ends with a redraw request for every reacting parameter; an insert edit grows context (kept to 20) and buffer, a delete edit shrinks both with size_t arithmetic, other edits are ignored; Stop pauses with a redraw, Pause halts; unknown controls and events change nothing |
| SessionInterface.DasherInterface.ParameterReaction | Src/DasherCore/DasherInterfaceBase.cpp:146-206 | each arm's whole effect, new fields, unchanged fields and call log, as the arm's effect predicate states; the font-size arm falls through into the mouse-position arm; parameters without an arm change nothing |
| SessionInterface.DasherInterface.RequestFullRedraw | Src/DasherCore/DasherInterfaceBase.cpp:252-254 | the redraw flag is set |
| SessionInterface.DasherInterface.ColourModeReaction | Src/DasherCore/DasherInterfaceBase.cpp:148-151 | ColourModeEffect: a paused session is started (its calls logged) and a redraw requested; alphabet, model, view, training state and orientation are kept |
| SessionInterface.DasherInterface.OrientationReaction | Src/DasherCore/DasherInterfaceBase.cpp:155-161 | OrientationEffect: the orientation in use is the option's, or the alphabet's when the option asks for the alphabet default; a redraw is requested; no call is made and nothing else changes |
| SessionInterface.DasherInterface.ColourIdReaction | Src/DasherCore/DasherInterfaceBase.cpp:182-185 | ColourIdEffect: the selected colour scheme is loaded and a redraw requested; nothing else changes |
| SessionInterface.DasherInterface.LanguageModelReaction | Src/DasherCore/DasherInterfaceBase.cpp:186-190 | LanguageModelEffect: for an id other than -1 the old model is deleted, the new one created and trained, the view rebuilt when selected and a screen exists; then a paused session is started and a redraw requested; buffer, alphabet and options are kept |
| SessionInterface.DasherInterface.AlphabetReaction | Src/DasherCore/DasherInterfaceBase.cpp:162-181 | AlphabetEffect: the buffer is flushed, the selected alphabet switched in with its options and palette, the model rebuilt under the lock (and the view with it), the orientation follows the alphabet under the alphabet default, and the session is started a second time with a redraw; the whole call log is given |
| SessionInterface.DasherInterface.AdoptAlphabetOrientation | Src/DasherCore/DasherInterfaceBase.cpp:176-177 | under the alphabet-default option the orientation in use becomes the alphabet's; otherwise it is left |
| SessionInterface.DasherInterface.FontSizeReaction | Src/DasherCore/DasherInterfaceBase.cpp:194-203 | MousePosEffect: the font-size arm requests a redraw and then does what the mouse-position arm does |
| SessionInterface.DasherInterface.MousePosReaction | Src/DasherCore/DasherInterfaceBase.cpp:197-203 | MousePosEffect: while paused the box follows mouse-position mode (1 or -1); a redraw is requested either way; nothing else changes |
| SessionInterface.DasherInterface.EditReaction | Src/DasherCore/DasherInterfaceBase.cpp:208-223 | insert appends to buffer and 20-character context; delete removes the text's length from both with size_t wrap; other kinds change nothing |

## Left out

- Training-file I/O (`TrainFile`, `WriteTrainFile`) is left out. Each appears only as a request in the call log, carrying its path or its text.
- Rendering is left out: drawing, `Render`, `Display`, `GoTo`, `ClickTo`, `DrawGoTo`, `DecorateView` and the second `Redraw` overload. A view redraw or mouse-position draw is a single logged call.
- `ChangeColours`, `CAlphIO`, `CColourIO` and `CAlphabet` internals are left out.
  - Loading a colour scheme is one logged call.
  - The alphabet catalogue is a table with a fallback entry for unknown ids.
  - An alphabet is just the fields the orchestrator reads.
- Whether a navigation model is context-sensitive is decided inside the model. It is given here as a fixed set of language-model ids.
- Collaborator internals are left out, and appear only as calls:
  - the user log: the nats value passed to `StopWriting`, and the symbol accounting in `TapOn`'s user-log branch;
  - the model: frame rate, nats and control trees;
  - the view: sums, the auto offset and `HandleStartOnMouse`, which is a boolean parameter of `NewFrame`.
- Character encoding is left out. The source's string sizes count bytes of UTF-8 text, and its own comments note it (Src/DasherCore/DasherInterfaceBase.cpp:246 and :820). Here one `char` stands for one byte. So the model, like the source, can cut a multi-byte character in two: at the 20-character context trim, at the 6-character comparison, at the 100-character partial flush and in a delete.
- Threading is left out. The training lock is the `training` flag; no concurrent access is modelled.
- Re-entrant notifications are not delivered automatically. In the source, each parameter write notifies every component, e.g. `SP_COLOUR_ID` written by `ChangeAlphabet` would reach the colour-id arm. Here a caller delivers each notification by calling a handler.
- Several source functions have no member of their own. They appear only where the source calls them:
  - `SetBoolParameter`, `SetLongParameter` and `SetStringParameter`, with their getters, are plain field accesses on the settings store.
  - `GetAlphabetOrientation` is read as the loaded alphabet's orientation, with the alphabet required to exist.
  - `GetTrainFile` is a read of the same store field.
- `GetAlphabetType`, `ControlPage`, the constructors' logger set-up, `Realize`, the destructor, the control-node functions and the filename lists are not part of this model.
- SessionInterface.DasherInterface.ChangeView: the view id is stored as given. The source passes it through an `unsigned int` parameter before storing it, so the model agrees with the source only for ids in [0, 2^32). An id outside that range would be stored as its remainder modulo 2^32: -2 becomes 4294967294. The core calls ChangeView only with the stored id, and only when that id is not -1.
- SessionInterface.DasherInterface.constructor: whether a screen, an edit box and a user log are attached is fixed when the object is built (`hasScreen`, `hasEditbox`, `hasUserLog`). In the source all three start null (Src/DasherCore/DasherInterfaceBase.cpp:54-69) and are attached later by `ChangeScreen`, `ChangeEdit` and `Realize`. The constructor's flags stand for the state after those attachments; attaching or detaching one later is not modelled, and `ChangeScreen` and `ChangeEdit` have no member.
- SwitchFilter.DynamicFilter.Timer: the tick time and coordinates are unbounded integers. The source computes in C++ `int`: the time difference `d` and the products `d` times the target coordinate and `1000 - d` times 2048 (Src/DasherCore/DynamicFilter.cpp:75-76). The products overflow first, once the difference is below about -537,000 (a tick long before the recorded press); past the window no product is computed. None of this overflow is modelled.
- SwitchFilter.DynamicFilter.constructor: the source never initialises `bBackOff` and `m_iKeyTime` in the constructor. Their starting values are therefore constructor parameters.
- SwitchFilter.DynamicFilter.HandleEvent: `m_iStyle` is written but nothing in the core reads it, so no property beyond its value is stated.
- SessionInterface.DasherInterface.NewFrame: the requirement that a view exist while paused or training mirrors an unchecked dereference in `DrawMousePos`. It is not a check the source makes.
