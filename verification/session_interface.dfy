/**
 * The session orchestrator (CDasherInterfaceBase): its own state, namely the
 * trailing edit context, the training-text buffer and which collaborators
 * exist, together with the flags it sets in the shared parameter store.
 * What it asks of its collaborators (navigation model, view, user log, edit
 * box, screen, the training-file writer) is recorded in order in `calls`, so
 * that the order of a lifecycle transition is part of its contract.
 */
module SessionInterface {
  import opened Parameters
  import opened EditText

  datatype Option<T> = None | Some(value: T)

  /** What an alphabet provides to the orchestrator's accessors. */
  datatype SymbolInfo = SymbolInfo(displayText: string, editText: string, textColour: int)

  /** An alphabet as the catalogue (CAlphIO) describes it. */
  datatype AlphabetInfo = AlphabetInfo(
    trainingFile: string,
    gameModeFile: string,
    palette: string,
    orientation: int,
    symbols: seq<SymbolInfo>)

  /** The alphabet catalogue (CAlphIO::GetInfo): the alphabets it has read,
      and the alphabet it answers with for an id it does not list. */
  datatype Catalogue = Catalogue(entries: map<string, AlphabetInfo>, fallback: AlphabetInfo)
  {
    function Lookup(id: string): AlphabetInfo
    {
      if id in entries then entries[id] else fallback
    }
  }

  /** The live navigation model, as far as the orchestrator can see it. */
  datatype NavigationModel = NavigationModel(languageModelId: int, contextSensitive: bool)

  /** Colour returned for text when no alphabet is loaded. */
  const DefaultTextColour: int := 4

  /** A request made of a collaborator. */
  datatype Call =
    | TrainFileWritten(text: string)                          // WriteTrainFile
    | ModelDeleted
    | ModelCreated(languageModelId: int, underTrainingLock: bool)
    | ModelTrainedFrom(path: string)                          // TrainFile
    | ModelStarted
    | ModelHalted
    | ModelFramerateReset(time: int)
    | ModelNatsReset
    | ModelContextSet(context: string)
    | ModelNewFrame(time: int)
    | ViewCreated(viewId: int)
    | ViewSumsReset(autoOffsetToo: bool)
    | ViewRedrawn
    | ViewMousePosDrawn
    | ViewTappedOn(time: int)
    | StopEventRaised
    | StartEventRaised
    | UserLogStopped
    | UserLogStarted
    | UserLogAlphabetSet
    | ColoursChanged(colourId: string)                        // ChangeColours
    | EditboxRebound
    | ScreenRebound

  /** Everything written to the training file, in order: a log that opens
      with a write opens the file with that text. */
  function WrittenText(calls: seq<Call>): (r: string)
    ensures |calls| > 0 && calls[0].TrainFileWritten? ==> calls[0].text <= r
  {
    if calls == [] then ""
    else
      var last := calls[|calls| - 1];
      WrittenText(calls[..|calls| - 1]) + (if last.TrainFileWritten? then last.text else "")
  }

  lemma WrittenTextAppend(calls: seq<Call>, c: Call)
    ensures WrittenText(calls + [c])
         == WrittenText(calls) + (if c.TrainFileWritten? then c.text else "")
  {
    assert (calls + [c])[..|calls|] == calls;
  }

  /** The text written by a log is the text written by its parts, in
      order. */
  lemma {:induction false} WrittenTextConcat(a: seq<Call>, b: seq<Call>)
    ensures WrittenText(a + b) == WrittenText(a) + WrittenText(b)
    decreases |b|
  {
    if b == [] {
      assert a + b == a;
    } else {
      var front, last := b[..|b| - 1], b[|b| - 1];
      assert b == front + [last];
      assert a + b == (a + front) + [last];
      var w := if last.TrainFileWritten? then last.text else "";
      WrittenTextAppend(a + front, last);
      WrittenTextConcat(a, front);
      WrittenTextAppend(front, last);
      assert WrittenText(a + b) == (WrittenText(a) + WrittenText(front)) + w;
    }
  }

  /** No request in `cs` writes to the training file. */
  predicate NoWrites(cs: seq<Call>)
  {
    forall c :: c in cs ==> !c.TrainFileWritten?
  }

  /** A log without training-file requests writes nothing. */
  lemma {:induction false} NoWritesWriteNothing(cs: seq<Call>)
    requires NoWrites(cs)
    ensures WrittenText(cs) == ""
    decreases |cs|
  {
    if cs != [] {
      var front := cs[..|cs| - 1];
      assert forall c :: c in front ==> c in cs;
      NoWritesWriteNothing(front);
    }
  }

  /** A flush followed only by requests that do not write writes exactly
      the flushed text. */
  lemma FlushThenNoWrites(flushed: string, rest: seq<Call>)
    requires NoWrites(rest)
    ensures WrittenText([TrainFileWritten(flushed)] + rest) == flushed
  {
    NoWritesWriteNothing(rest);
    WrittenTextConcat([TrainFileWritten(flushed)], rest);
    WrittenTextAppend([], TrainFileWritten(flushed));
    assert [] + [TrainFileWritten(flushed)] == [TrainFileWritten(flushed)];
  }

  /** The orientation actually used: the alphabet's when the option asks for
      the alphabet default. */
  function RealOrientation(orientation: int, alphabet: Option<AlphabetInfo>): int
    requires orientation == AlphabetDefault ==> alphabet.Some?
  {
    if orientation == AlphabetDefault then alphabet.value.orientation else orientation
  }

  /** What CreateDasherModel asks for once it has decided to build a model:
      create it (recording whether the training lock is held), train it from
      the system and then the user copy of the alphabet's training file, and
      rebuild the view when a view is selected and a screen exists. */
  function ModelCreationCalls(languageModelId: int, locked: bool, systemLoc: string,
                              userLoc: string, trainingFile: string, viewId: int,
                              screen: bool): seq<Call>
  {
    [ModelCreated(languageModelId, locked)]
    + [ModelTrainedFrom(systemLoc + trainingFile)]
    + [ModelTrainedFrom(userLoc + trainingFile)]
    + Only(viewId != -1 && screen, ViewCreated(viewId))
  }

  /** Every model creation among `cs` happened with the training lock held. */
  predicate CreatedUnderLock(cs: seq<Call>)
  {
    forall c :: c in cs && c.ModelCreated? ==> c.underTrainingLock
  }

  /** The creation sequence records the lock exactly as it was held: built
      under the lock it satisfies CreatedUnderLock, built without it it does
      not. */
  lemma CreationUnderLock(languageModelId: int, systemLoc: string, userLoc: string,
                          trainingFile: string, viewId: int, screen: bool)
    ensures CreatedUnderLock(ModelCreationCalls(languageModelId, true, systemLoc, userLoc,
                                                trainingFile, viewId, screen))
    ensures !CreatedUnderLock(ModelCreationCalls(languageModelId, false, systemLoc, userLoc,
                                                 trainingFile, viewId, screen))
  {
    var unlocked := ModelCreationCalls(languageModelId, false, systemLoc, userLoc,
                                       trainingFile, viewId, screen);
    assert unlocked[0] == ModelCreated(languageModelId, false);
  }

  /** The one-call fragment of a call made only when `present` holds. */
  function Only(present: bool, c: Call): seq<Call>
  {
    if present then [c] else []
  }

  /** Appending five fragments one after another appends their
      concatenation. */
  lemma AppendFive<T>(log: seq<T>, a: seq<T>, b: seq<T>, c: seq<T>, d: seq<T>, e: seq<T>)
    ensures log + a + b + c + d + e == log + (a + b + c + d + e)
  {
  }

  lemma AppendFour<T>(log: seq<T>, a: seq<T>, b: seq<T>, c: seq<T>, d: seq<T>)
    ensures log + a + b + c + d == log + (a + b + c + d)
  {
  }

  lemma AppendThree<T>(log: seq<T>, a: seq<T>, b: seq<T>, c: seq<T>)
    ensures log + a + b + c == log + (a + b + c)
  {
  }

  class DasherInterface {
    const store: SettingsStore
    const catalogue: Catalogue
    /** The language models whose navigation models are context-sensitive
        (decided inside CDasherModel). */
    const contextSensitiveModels: set<int>
    const hasScreen: bool
    const hasEditbox: bool
    const hasUserLog: bool

    var context: string        // strCurrentContext
    var trainBuffer: string    // strTrainfileBuffer
    var alphabet: Option<AlphabetInfo>
    var model: Option<NavigationModel>
    var hasView: bool
    var calls: seq<Call>

    constructor (store: SettingsStore, catalogue: Catalogue,
                 contextSensitiveModels: set<int>,
                 hasScreen: bool, hasEditbox: bool, hasUserLog: bool)
      ensures this.store == store && this.catalogue == catalogue
      ensures this.contextSensitiveModels == contextSensitiveModels
      ensures this.hasScreen == hasScreen && this.hasEditbox == hasEditbox
      ensures this.hasUserLog == hasUserLog
      ensures context == ". " && trainBuffer == ""
      ensures alphabet == None && model == None && !hasView && calls == []
    {
      this.store := store;
      this.catalogue := catalogue;
      this.contextSensitiveModels := contextSensitiveModels;
      this.hasScreen := hasScreen;
      this.hasEditbox := hasEditbox;
      this.hasUserLog := hasUserLog;
      context := ". ";
      trainBuffer := "";
      alphabet := None;
      model := None;
      hasView := false;
      calls := [];
    }

    /** The navigation model built for a language model id. */
    function ModelFor(languageModelId: int): NavigationModel
    {
      NavigationModel(languageModelId, languageModelId in contextSensitiveModels)
    }

    // ----- Calls each lifecycle step makes, in order -----

    function PauseAtCalls(): seq<Call>
    {
      [StopEventRaised] + Only(hasUserLog, UserLogStopped)
    }

    function HaltCalls(): seq<Call>
      reads this`model, this`hasView
    {
      Only(model.Some?, ModelHalted)
    }

    function UnpauseCalls(time: int): seq<Call>
      reads this`model, this`hasView
    {
      Only(model.Some?, ModelFramerateReset(time))
      + Only(hasView, ViewSumsReset(false))
      + [StartEventRaised]
      + Only(model.Some?, ModelNatsReset)
      + Only(hasUserLog, UserLogStarted)
    }

    function StartCalls(): seq<Call>
      reads this`model, this`hasView
    {
      PauseAtCalls()
      + Only(model.Some?, ModelStarted)
      + Only(hasView, ViewSumsReset(true))
    }

    function TapOnCalls(time: int): seq<Call>
      reads this`model, this`hasView
    {
      Only(hasView, ViewTappedOn(time))
      + Only(model.Some?, ModelNewFrame(time))
    }

    // ----- Training-text buffer -----

    /** Writes the whole buffer out and empties it. */
    method WriteTrainFileFull()
      modifies this`trainBuffer, this`calls
      ensures trainBuffer == ""
      ensures calls == old(calls) + [TrainFileWritten(old(trainBuffer))]
      ensures WrittenText(calls) + trainBuffer == old(WrittenText(calls) + trainBuffer)
    {
      WrittenTextAppend(calls, TrainFileWritten(trainBuffer));
      calls := calls + [TrainFileWritten(trainBuffer)];
      trainBuffer := "";
    }

    /** Writes the first hundred characters out and keeps the rest; the
        buffer must hold at least that many, or `substr(100)` throws. */
    method WriteTrainFilePartial()
      requires |trainBuffer| >= PartialFlushSize
      modifies this`trainBuffer, this`calls
      ensures calls == old(calls) + [TrainFileWritten(old(trainBuffer)[..PartialFlushSize])]
      ensures trainBuffer == old(trainBuffer)[PartialFlushSize..]
      ensures |old(trainBuffer)| - |trainBuffer| == PartialFlushSize
      ensures WrittenText(calls) + trainBuffer == old(WrittenText(calls) + trainBuffer)
    {
      var (written, kept) := PartialFlush(trainBuffer);
      WrittenTextAppend(calls, TrainFileWritten(written));
      calls := calls + [TrainFileWritten(written)];
      trainBuffer := kept;
    }

    // ----- Pausing and resuming -----

    /** Pauses, shows the mouse-position box in mouse-position mode, asks
        for a full redraw and announces the stop. */
    method PauseAt(mouseX: int, mouseY: int)
      modifies this`calls, store`paused, store`redraw, store`mousePosBox
      ensures store.paused && store.redraw
      ensures store.mousePosBox == if store.mousePosMode then 1 else old(store.mousePosBox)
      ensures calls == old(calls) + PauseAtCalls()
    {
      store.paused := true;
      if store.mousePosMode {
        store.mousePosBox := 1;
      }
      store.redraw := true;
      calls := calls + [StopEventRaised];
      calls := calls + Only(hasUserLog, UserLogStopped);
    }

    /** Pauses as PauseAt does but without the redraw request, and has the
        model restart its frame-rate accounting. */
    method Halt()
      modifies this`calls, store`paused, store`mousePosBox
      ensures store.paused
      ensures store.mousePosBox == if store.mousePosMode then 1 else old(store.mousePosBox)
      ensures calls == old(calls) + HaltCalls()
    {
      store.paused := true;
      if store.mousePosMode {
        store.mousePosBox := 1;
      }
      calls := calls + Only(model.Some?, ModelHalted);
    }

    /** Resumes: unpaused, the mouse-position box hidden, frame rate and
        information count reset. */
    method Unpause(time: int)
      modifies this`calls, store`paused, store`mousePosBox
      ensures !store.paused && store.mousePosBox == -1
      ensures calls == old(calls) + UnpauseCalls(time)
    {
      ghost var before := calls;
      var framerate := Only(model.Some?, ModelFramerateReset(time));
      var sums := Only(hasView, ViewSumsReset(false));
      var nats := Only(model.Some?, ModelNatsReset);
      var userLog := Only(hasUserLog, UserLogStarted);
      store.paused := false;
      calls := calls + framerate;
      calls := calls + sums;
      store.mousePosBox := -1;
      calls := calls + [StartEventRaised];
      calls := calls + nats;
      calls := calls + userLog;
      AppendFive(before, framerate, sums, [StartEventRaised], nats, userLog);
    }

    /** Starts a session: always ends paused, with the model restarted and
        the view's accumulators reset when they exist. */
    method Start()
      modifies this`calls, store`paused, store`redraw, store`mousePosBox
      ensures store.paused && store.redraw
      ensures store.mousePosBox == if store.mousePosMode then 1 else old(store.mousePosBox)
      ensures calls == old(calls) + StartCalls()
    {
      PauseAt(0, 0);
      calls := calls + Only(model.Some?, ModelStarted);
      calls := calls + Only(hasView, ViewSumsReset(true));
    }

    // ----- The frame step -----

    method Redraw()
      modifies this`calls
      ensures calls == old(calls) + Only(hasView, ViewRedrawn)
    {
      calls := calls + Only(hasView, ViewRedrawn);
    }

    method TapOn(mouseX: int, mouseY: int, time: int)
      modifies this`calls
      ensures calls == old(calls) + TapOnCalls(time)
    {
      calls := calls + Only(hasView, ViewTappedOn(time));
      calls := calls + Only(model.Some?, ModelNewFrame(time));
    }

    /** The calls one frame makes: the pending redraw, then either the
        mouse-position marker (while halted) or a step of view and model,
        then the start that the view may trigger. */
    function NewFrameCalls(redrawPending: bool, halted: bool, time: int, starts: bool): seq<Call>
      reads this`model, this`hasView
    {
      Only(redrawPending && hasView, ViewRedrawn)
      + (if halted then [ViewMousePosDrawn] else TapOnCalls(time))
      + (if starts then UnpauseCalls(time) else [])
    }

    /** The model advances in a frame exactly when it exists and the frame
        is neither paused nor training; a start triggered in the same frame
        does not step it. */
    lemma ModelStepsOnlyWhenRunning(redrawPending: bool, halted: bool, time: int, starts: bool)
      ensures ModelNewFrame(time) in NewFrameCalls(redrawPending, halted, time, starts)
          <==> model.Some? && !halted
    {
      var step := if halted then [ViewMousePosDrawn] else TapOnCalls(time);
      var start := if starts then UnpauseCalls(time) else [];
      assert NewFrameCalls(redrawPending, halted, time, starts)
          == Only(redrawPending && hasView, ViewRedrawn) + step + start;
      assert ModelNewFrame(time) !in start;
      assert !halted ==> (ModelNewFrame(time) in step <==> model.Some?);
    }

    /** One frame: a pending full redraw is done and cleared; the model
        steps only when neither paused nor training; in mouse-position mode
        the view may start the session.  `viewStartsOnMouse` is the view's
        answer to HandleStartOnMouse.  While paused or training the frame
        draws through the view without checking that one exists. */
    method NewFrame(time: int, viewStartsOnMouse: bool)
      requires store.paused || store.training ==> hasView
      modifies this`calls, store`redraw, store`paused, store`mousePosBox
      ensures !store.redraw
      ensures
        var started := store.mousePosMode && hasView && viewStartsOnMouse;
        && store.paused == (if started then false else old(store.paused))
        && store.mousePosBox == (if started then -1 else old(store.mousePosBox))
      ensures calls == old(calls)
        + NewFrameCalls(old(store.redraw), old(store.paused) || store.training, time,
                        store.mousePosMode && hasView && viewStartsOnMouse)
    {
      ghost var before := calls;
      ghost var redrawn := Only(store.redraw && hasView, ViewRedrawn);
      ghost var step := if store.paused || store.training then [ViewMousePosDrawn] else TapOnCalls(time);
      ghost var start := if store.mousePosMode && hasView && viewStartsOnMouse
                         then UnpauseCalls(time) else [];
      assert NewFrameCalls(store.redraw, store.paused || store.training, time,
                           store.mousePosMode && hasView && viewStartsOnMouse)
          == redrawn + step + start;
      ServeRedrawRequest();
      StepOrDrawMousePos(time);
      StartOnMouse(time, viewStartsOnMouse);
      AppendThree(before, redrawn, step, start);
    }

    /** A requested full redraw is carried out and the request cleared. */
    method ServeRedrawRequest()
      modifies this`calls, store`redraw
      ensures !store.redraw
      ensures calls == old(calls) + Only(old(store.redraw) && hasView, ViewRedrawn)
    {
      if store.redraw {
        Redraw();
        store.redraw := false;
      }
    }

    /** While paused or training only the mouse position is drawn; otherwise
        view and model take a step. */
    method StepOrDrawMousePos(time: int)
      requires store.paused || store.training ==> hasView
      modifies this`calls
      ensures calls == old(calls)
        + if store.paused || store.training then [ViewMousePosDrawn] else TapOnCalls(time)
    {
      if store.paused || store.training {
        DrawMousePos();
      } else {
        TapOn(0, 0, time);
      }
    }

    /** Draws through the view, which must exist. */
    method DrawMousePos()
      requires hasView
      modifies this`calls
      ensures calls == old(calls) + [ViewMousePosDrawn]
    {
      calls := calls + [ViewMousePosDrawn];
    }

    /** In mouse-position mode the view decides whether the mouse has
        started the session; if it has, the session resumes. */
    method StartOnMouse(time: int, viewStartsOnMouse: bool)
      modifies this`calls, store`paused, store`mousePosBox
      ensures
        var started := store.mousePosMode && hasView && viewStartsOnMouse;
        && store.paused == (if started then false else old(store.paused))
        && store.mousePosBox == (if started then -1 else old(store.mousePosBox))
        && calls == old(calls) + (if started then UnpauseCalls(time) else [])
    {
      if store.mousePosMode {
        if hasView {
          if viewStartsOnMouse {
            Unpause(time);
          }
        }
      }
    }

    // ----- Models, views, alphabets -----

    /** Selects a view and rebuilds it when both a screen and a model exist. */
    method ChangeView(viewId: int)
      modifies this`hasView, this`calls, store`viewId
      ensures store.viewId == viewId
      ensures hasView == (old(hasView) || (hasScreen && model.Some?))
      ensures calls == old(calls) + Only(hasScreen && model.Some?, ViewCreated(viewId))
    {
      store.viewId := viewId;
      if hasScreen && model.Some? {
        hasView := true;
        calls := calls + [ViewCreated(viewId)];
      }
    }

    /** Replaces the navigation model and retrains it from the alphabet's
        training file, unless no language model is selected. */
    method CreateDasherModel()
      requires store.languageModelId != -1 ==> alphabet.Some?
      modifies this`model, this`hasView, this`calls, store`viewId
      ensures store.viewId == old(store.viewId)
      ensures store.languageModelId == -1 ==>
        model == old(model) && hasView == old(hasView) && calls == old(calls)
      ensures store.languageModelId != -1 ==>
        var lm := store.languageModelId;
        && model == Some(ModelFor(lm))
        && hasView == (old(hasView) || (store.viewId != -1 && hasScreen))
        && calls == old(calls) + Only(old(model).Some?, ModelDeleted)
                   + ModelCreationCalls(lm, store.training, store.systemLoc, store.userLoc,
                                        alphabet.value.trainingFile, store.viewId, hasScreen)
    {
      var lmId := store.languageModelId;
      if lmId != -1 {
        ghost var before := calls;
        var deleted := Only(model.Some?, ModelDeleted);
        var t := alphabet.value.trainingFile;
        var created := [ModelCreated(lmId, store.training)];
        var system := [ModelTrainedFrom(store.systemLoc + t)];
        var user := [ModelTrainedFrom(store.userLoc + t)];
        ghost var view := Only(store.viewId != -1 && hasScreen, ViewCreated(store.viewId));
        calls := calls + deleted;
        model := Some(ModelFor(lmId));
        calls := calls + created;
        calls := calls + system;
        calls := calls + user;
        if store.viewId != -1 {
          ChangeView(store.viewId);
        }
        assert calls == before + deleted + created + system + user + view;
        AppendFour(before + deleted, created, system, user, view);
      }
    }

    /** The first half of an alphabet switch, run under the training lock:
        the buffer is flushed, the alphabet and its files are installed, the
        edit box and screen are rebound and the old model is discarded. */
    function InstallCalls(flushed: string, hadModel: bool): seq<Call>
    {
      [TrainFileWritten(flushed)]
      + Only(hasUserLog, UserLogAlphabetSet)
      + Only(hasEditbox, EditboxRebound)
      + Only(hasScreen, ScreenRebound)
      + Only(hadModel, ModelDeleted)
    }

    /** Flushing, installing and starting never create a model. */
    lemma NothingCreatedOutsideModelCreation(flushed: string, hadModel: bool)
      ensures CreatedUnderLock(InstallCalls(flushed, hadModel))
      ensures CreatedUnderLock(StartCalls())
    {
    }

    method InstallAlphabet(info: AlphabetInfo)
      modifies this`trainBuffer, this`alphabet, this`model, this`calls
      modifies store`training, store`trainFile, store`gameTextFile
      ensures trainBuffer == "" && alphabet == Some(info) && model == None
      ensures store.training && store.trainFile == info.trainingFile
      ensures store.gameTextFile
           == if |info.gameModeFile| > 0 then info.gameModeFile else old(store.gameTextFile)
      ensures calls == old(calls) + InstallCalls(old(trainBuffer), old(model).Some?)
    {
      ghost var before := calls;
      var flushed := [TrainFileWritten(trainBuffer)];
      var userLog := Only(hasUserLog, UserLogAlphabetSet);
      var editbox := Only(hasEditbox, EditboxRebound);
      var screen := Only(hasScreen, ScreenRebound);
      var deleted := Only(model.Some?, ModelDeleted);
      WriteTrainFileFull();
      store.training := true;
      alphabet := Some(info);
      calls := calls + userLog;
      ApplyAlphabetOptions(info);
      calls := calls + editbox;
      calls := calls + screen;
      calls := calls + deleted;
      model := None;
      AppendFive(before, flushed, userLog, editbox, screen, deleted);
    }

    /** Options taken from a newly loaded alphabet: its training file, and
        its game-mode text when it names one. */
    method ApplyAlphabetOptions(info: AlphabetInfo)
      modifies store`trainFile, store`gameTextFile
      ensures store.trainFile == info.trainingFile
      ensures store.gameTextFile
           == if |info.gameModeFile| > 0 then info.gameModeFile else old(store.gameTextFile)
    {
      store.trainFile := info.trainingFile;
      if |info.gameModeFile| > 0 {
        store.gameTextFile := info.gameModeFile;
      }
    }

    /** Switches alphabet: flushes the training buffer first, holds the
        training lock while the old model is discarded and the new one is
        built and trained, releases it and starts a paused session. */
    method ChangeAlphabet(id: string)
      modifies this`trainBuffer, this`alphabet, this`model, this`hasView, this`calls
      modifies store`training, store`trainFile, store`gameTextFile, store`colourId
      modifies store`viewId, store`paused, store`redraw, store`mousePosBox
      ensures trainBuffer == ""
      ensures alphabet == Some(catalogue.Lookup(id))
      ensures !store.training && store.paused && store.redraw
      ensures store.mousePosBox == if store.mousePosMode then 1 else old(store.mousePosBox)
      ensures store.trainFile == alphabet.value.trainingFile
      ensures store.gameTextFile
           == if |alphabet.value.gameModeFile| > 0 then alphabet.value.gameModeFile
              else old(store.gameTextFile)
      ensures store.colourId
           == if alphabet.value.palette != "" && store.paletteChange then alphabet.value.palette
              else old(store.colourId)
      ensures store.viewId == old(store.viewId)
      ensures store.languageModelId == -1 ==> model == None && hasView == old(hasView)
      ensures store.languageModelId != -1 ==>
        var lm := store.languageModelId;
        && model == Some(ModelFor(lm))
        && hasView == (old(hasView) || (store.viewId != -1 && hasScreen))
      ensures calls == old(calls)
        + InstallCalls(old(trainBuffer), old(model).Some?)
        + (if store.languageModelId != -1
           then ModelCreationCalls(store.languageModelId, true, store.systemLoc, store.userLoc,
                                   alphabet.value.trainingFile, store.viewId, hasScreen)
           else [])
        + StartCalls()
    {
      InstallAlphabet(catalogue.Lookup(id));
      RebuildAndStart();
    }

    /** The second half of an alphabet switch: the model is rebuilt under
        the training lock, the alphabet's palette adopted when palette
        changes are allowed, the lock released and a session started. */
    method RebuildAndStart()
      requires alphabet.Some? && model.None? && store.training
      modifies this`model, this`hasView, this`calls
      modifies store`training, store`colourId, store`viewId, store`paused, store`redraw
      modifies store`mousePosBox
      ensures !store.training && store.paused && store.redraw
      ensures store.mousePosBox == if store.mousePosMode then 1 else old(store.mousePosBox)
      ensures store.colourId
           == if alphabet.value.palette != "" && store.paletteChange then alphabet.value.palette
              else old(store.colourId)
      ensures store.viewId == old(store.viewId)
      ensures store.languageModelId == -1 ==> model == None && hasView == old(hasView)
      ensures store.languageModelId != -1 ==>
        && model == Some(ModelFor(store.languageModelId))
        && hasView == (old(hasView) || (store.viewId != -1 && hasScreen))
      ensures calls == old(calls)
        + (if store.languageModelId != -1
           then ModelCreationCalls(store.languageModelId, true, store.systemLoc, store.userLoc,
                                   alphabet.value.trainingFile, store.viewId, hasScreen)
           else [])
        + StartCalls()
    {
      ghost var creation := if store.languageModelId != -1
        then ModelCreationCalls(store.languageModelId, true, store.systemLoc, store.userLoc,
                                alphabet.value.trainingFile, store.viewId, hasScreen)
        else [];
      ghost var before := calls;
      CreateDasherModel();
      assert calls == before + creation;
      AdoptPalette();
      store.training := false;
      Start();
      assert calls == before + creation + StartCalls();
    }

    /** The alphabet's palette becomes the colour scheme when it names one
        and palette changes are allowed. */
    method AdoptPalette()
      requires alphabet.Some?
      modifies store`colourId
      ensures store.colourId
           == if alphabet.value.palette != "" && store.paletteChange then alphabet.value.palette
              else old(store.colourId)
    {
      var palette := alphabet.value.palette;
      if palette != "" && store.paletteChange {
        store.colourId := palette;
      }
    }

    /** Everything an alphabet switch asks of its collaborators happens with
        the training lock held wherever a model is created. */
    lemma AlphabetSwitchCreatesUnderLock(flushed: string, hadModel: bool, languageModelId: int,
                                         systemLoc: string, userLoc: string,
                                         trainingFile: string, viewId: int)
      ensures CreatedUnderLock(
        InstallCalls(flushed, hadModel)
        + (if languageModelId != -1
           then ModelCreationCalls(languageModelId, true, systemLoc, userLoc,
                                   trainingFile, viewId, hasScreen)
           else [])
        + StartCalls())
    {
      NothingCreatedOutsideModelCreation(flushed, hadModel);
      if languageModelId != -1 {
        CreationUnderLock(languageModelId, systemLoc, userLoc, trainingFile, viewId, hasScreen);
      }
    }

    /** The install step of an alphabet switch writes exactly the flushed
        buffer. */
    lemma InstallWritesFlushed(flushed: string, hadModel: bool)
      ensures WrittenText(InstallCalls(flushed, hadModel)) == flushed
    {
      var rest := Only(hasUserLog, UserLogAlphabetSet) + Only(hasEditbox, EditboxRebound)
                  + Only(hasScreen, ScreenRebound) + Only(hadModel, ModelDeleted);
      assert InstallCalls(flushed, hadModel) == [TrainFileWritten(flushed)] + rest;
      FlushThenNoWrites(flushed, rest);
    }

    /** An alphabet switch writes exactly the buffer it flushed to the
        training file, and nothing else: building, training and starting
        never write. */
    lemma AlphabetSwitchWritesOnlyTheBuffer(log: seq<Call>, flushed: string, hadModel: bool,
                                            creation: seq<Call>)
      requires NoWrites(creation)
      ensures WrittenText(log + InstallCalls(flushed, hadModel) + creation + StartCalls())
           == WrittenText(log) + flushed
    {
      var install := InstallCalls(flushed, hadModel);
      var start := StartCalls();
      InstallWritesFlushed(flushed, hadModel);
      NoWritesWriteNothing(creation);
      NoWritesWriteNothing(start);
      WrittenTextConcat(log, install);
      WrittenTextConcat(log + install, creation);
      WrittenTextConcat(log + install + creation, start);
    }

    /** Model creation never writes to the training file. */
    lemma CreationWritesNothing(languageModelId: int, locked: bool, systemLoc: string,
                                userLoc: string, trainingFile: string, viewId: int)
      ensures NoWrites(ModelCreationCalls(languageModelId, locked, systemLoc, userLoc,
                                          trainingFile, viewId, hasScreen))
    {
    }

    /** Selects another language model; the same id changes nothing.  The
        model is rebuilt, and a session started, only once an alphabet
        exists. */
    method ChangeLanguageModel(newId: int)
      modifies this`model, this`hasView, this`calls
      modifies store`languageModelId, store`viewId, store`paused, store`redraw, store`mousePosBox
      ensures newId == old(store.languageModelId) ==>
        && unchanged(this`model, this`hasView, this`calls)
        && unchanged(store`languageModelId, store`viewId, store`paused, store`redraw, store`mousePosBox)
      ensures newId != old(store.languageModelId) && alphabet.None? ==>
        && store.languageModelId == newId
        && unchanged(this`model, this`hasView, this`calls)
        && unchanged(store`viewId, store`paused, store`redraw, store`mousePosBox)
      ensures newId != old(store.languageModelId) && alphabet.Some? ==>
        && store.languageModelId == newId && store.viewId == old(store.viewId)
        && store.paused && store.redraw
        && store.mousePosBox == (if store.mousePosMode then 1 else old(store.mousePosBox))
        && (newId != -1 ==>
              && model == Some(ModelFor(newId))
              && hasView == (old(hasView) || (store.viewId != -1 && hasScreen)))
        && (newId == -1 ==> model == old(model) && hasView == old(hasView))
        && calls == old(calls)
           + (if newId != -1
              then Only(old(model).Some?, ModelDeleted)
                   + ModelCreationCalls(newId, store.training, store.systemLoc, store.userLoc,
                                        alphabet.value.trainingFile, store.viewId, hasScreen)
              else [])
           + StartCalls()
    {
      if newId != store.languageModelId {
        store.languageModelId := newId;
        if alphabet.Some? {
          RebuildModelAndStart();
        }
      }
    }

    /** Rebuilds the model for the selected language model and starts a
        paused session. */
    method RebuildModelAndStart()
      requires store.languageModelId != -1 ==> alphabet.Some?
      modifies this`model, this`hasView, this`calls
      modifies store`viewId, store`paused, store`redraw, store`mousePosBox
      ensures store.paused && store.redraw && store.viewId == old(store.viewId)
      ensures store.mousePosBox == if store.mousePosMode then 1 else old(store.mousePosBox)
      ensures store.languageModelId == -1 ==> model == old(model) && hasView == old(hasView)
      ensures store.languageModelId != -1 ==>
        && model == Some(ModelFor(store.languageModelId))
        && hasView == (old(hasView) || (store.viewId != -1 && hasScreen))
      ensures calls == old(calls)
        + (if store.languageModelId != -1
           then Only(old(model).Some?, ModelDeleted)
                + ModelCreationCalls(store.languageModelId, store.training, store.systemLoc,
                                     store.userLoc, alphabet.value.trainingFile, store.viewId,
                                     hasScreen)
           else [])
        + StartCalls()
    {
      ghost var creation := if store.languageModelId != -1
        then Only(model.Some?, ModelDeleted)
             + ModelCreationCalls(store.languageModelId, store.training, store.systemLoc,
                                  store.userLoc, alphabet.value.trainingFile, store.viewId,
                                  hasScreen)
        else [];
      ghost var before := calls;
      CreateDasherModel();
      assert calls == before + creation;
      Start();
    }

    // ----- Context -----

    /** Takes a context set from outside.  Only a change in the last six
        characters counts: then the context is replaced, the model (when it
        is context-sensitive) is told and the session paused, and the
        training buffer is flushed. */
    method SetContext(newContext: string)
      modifies this`context, this`trainBuffer, this`calls
      modifies store`paused, store`redraw, store`mousePosBox
      ensures !ContextChanged(old(context), newContext) ==>
        && unchanged(this`context, this`trainBuffer, this`calls)
        && unchanged(store`paused, store`redraw, store`mousePosBox)
      ensures ContextChanged(old(context), newContext) ==>
        var sensitive := model.Some? && model.value.contextSensitive;
        && context == newContext && trainBuffer == ""
        && (sensitive ==> store.paused && store.redraw
                          && store.mousePosBox == (if store.mousePosMode then 1 else old(store.mousePosBox)))
        && (!sensitive ==> unchanged(store`paused, store`redraw, store`mousePosBox))
        && calls == old(calls)
           + (if sensitive then [ModelContextSet(newContext)] + PauseAtCalls() else [])
           + [TrainFileWritten(old(trainBuffer))]
    {
      if Suffix(newContext, ContextWindow) != Suffix(context, ContextWindow) {
        ghost var before := calls;
        ghost var flush := [TrainFileWritten(trainBuffer)];
        ghost var told := if model.Some? && model.value.contextSensitive
                          then [ModelContextSet(newContext)] + PauseAtCalls() else [];
        if model.Some? {
          if model.value.contextSensitive {
            calls := calls + [ModelContextSet(newContext)];
            PauseAt(0, 0);
          }
        }
        assert calls == before + told;
        context := newContext;
        WriteTrainFileFull();
        assert calls == before + told + flush;
      }
    }

    // ----- Accessors, with defaults when no alphabet is loaded -----

    /** A symbol the loaded alphabet knows; anything goes without one. */
    predicate ValidSymbol(symbol: nat)
      reads this
    {
      alphabet.Some? ==> symbol < |alphabet.value.symbols|
    }

    function GetNumberSymbols(): (n: nat)
      reads this
      ensures alphabet.None? ==> n == 0
      ensures alphabet.Some? ==> n == |alphabet.value.symbols|
    {
      if alphabet.Some? then |alphabet.value.symbols| else 0
    }

    function GetDisplayText(symbol: nat): (s: string)
      reads this
      requires ValidSymbol(symbol)
      ensures alphabet.None? ==> s == ""
      ensures alphabet.Some? ==> s == alphabet.value.symbols[symbol].displayText
    {
      if alphabet.Some? then alphabet.value.symbols[symbol].displayText else ""
    }

    function GetEditText(symbol: nat): (s: string)
      reads this
      requires ValidSymbol(symbol)
      ensures alphabet.None? ==> s == ""
      ensures alphabet.Some? ==> s == alphabet.value.symbols[symbol].editText
    {
      if alphabet.Some? then alphabet.value.symbols[symbol].editText else ""
    }

    function GetTextColour(symbol: nat): (c: int)
      reads this
      requires ValidSymbol(symbol)
      ensures alphabet.None? ==> c == DefaultTextColour
      ensures alphabet.Some? ==> c == alphabet.value.symbols[symbol].textColour
    {
      if alphabet.Some? then alphabet.value.symbols[symbol].textColour else DefaultTextColour
    }

    // ----- Event dispatch -----

    /** What the handler needs: the alphabet must exist wherever the source
        reads it without a check. */
    predicate HandlerDefined(e: Event)
      reads this, store
    {
      match e
      case ParameterChanged(Orientation) =>
        store.orientation == AlphabetDefault ==> alphabet.Some?
      case ParameterChanged(LanguageModelId) =>
        store.languageModelId != -1 ==> alphabet.Some?
      case _ => true
    }

    /** The parameters whose change the orchestrator reacts to; every
        reaction ends by requesting a full redraw. */
    static predicate Reacts(p: Parameter)
    {
      !p.OtherParameter? && p != ButtonSteady && p != ButtonPulsing
    }

    // ----- What each parameter notification does -----

    /** The training data, the alphabet, the model and the view are left as
        they were. */
    twostate predicate SessionKept()
      reads this, store
    {
      && unchanged(this`trainBuffer, this`alphabet, this`model, this`hasView)
      && unchanged(store`training, store`trainFile, store`gameTextFile, store`colourId)
      && unchanged(store`viewId)
    }

    /** BP_OUTLINE_MODE and LP_LINE_WIDTH: a full redraw is requested and
        nothing else changes. */
    twostate predicate RedrawOnlyEffect()
      reads this, store
    {
      && store.redraw
      && unchanged(this`calls, store`paused, store`mousePosBox, store`realOrientation)
      && SessionKept()
    }

    /** BP_COLOUR_MODE: start again and redraw. */
    twostate predicate ColourModeEffect()
      reads this, store
    {
      && store.paused && store.redraw
      && store.mousePosBox == (if store.mousePosMode then 1 else old(store.mousePosBox))
      && calls == old(calls) + StartCalls()
      && unchanged(store`realOrientation)
      && SessionKept()
    }

    /** LP_ORIENTATION: the orientation in use follows the option, or the
        alphabet's own when the option asks for the default. */
    twostate predicate OrientationEffect()
      reads this, store
    {
      && (store.orientation == AlphabetDefault ==> alphabet.Some?)
      && store.realOrientation == RealOrientation(store.orientation, alphabet)
      && store.redraw
      && unchanged(this`calls, store`paused, store`mousePosBox)
      && SessionKept()
    }

    /** SP_COLOUR_ID: the selected colour scheme is loaded. */
    twostate predicate ColourIdEffect()
      reads this, store
    {
      && store.redraw
      && calls == old(calls) + [ColoursChanged(store.colourId)]
      && unchanged(store`paused, store`mousePosBox, store`realOrientation)
      && SessionKept()
    }

    /** LP_LANGUAGE_MODEL_ID: the model is rebuilt for the selected language
        model (kept when the id is -1), then the session starts again. */
    twostate predicate LanguageModelEffect()
      reads this, store
    {
      && store.paused && store.redraw
      && store.mousePosBox == (if store.mousePosMode then 1 else old(store.mousePosBox))
      && (store.languageModelId == -1 ==>
            && model == old(model) && hasView == old(hasView)
            && calls == old(calls) + StartCalls())
      && (store.languageModelId != -1 ==>
            && alphabet.Some?
            && model == Some(ModelFor(store.languageModelId))
            && hasView == (old(hasView) || (store.viewId != -1 && hasScreen))
            && calls == old(calls)
                 + (Only(old(model).Some?, ModelDeleted)
                    + ModelCreationCalls(store.languageModelId, store.training, store.systemLoc,
                                         store.userLoc, alphabet.value.trainingFile, store.viewId,
                                         hasScreen))
                 + StartCalls())
      && unchanged(this`trainBuffer, this`alphabet)
      && unchanged(store`training, store`trainFile, store`gameTextFile, store`colourId)
      && unchanged(store`viewId, store`realOrientation)
    }

    /** SP_ALPHABET_ID: the training buffer is flushed, the selected
        alphabet is installed with its options, the model is rebuilt for
        it, the orientation follows it when the option asks for the
        alphabet default, and the session starts (twice). */
    twostate predicate AlphabetEffect()
      reads this, store
    {
      && alphabet == Some(catalogue.Lookup(store.alphabetId))
      && trainBuffer == "" && store.paused && store.redraw && !store.training
      && store.realOrientation
         == (if store.orientation == AlphabetDefault then alphabet.value.orientation
             else old(store.realOrientation))
      && store.mousePosBox == (if store.mousePosMode then 1 else old(store.mousePosBox))
      && store.trainFile == alphabet.value.trainingFile
      && store.gameTextFile
         == (if |alphabet.value.gameModeFile| > 0 then alphabet.value.gameModeFile
             else old(store.gameTextFile))
      && store.colourId
         == (if alphabet.value.palette != "" && store.paletteChange then alphabet.value.palette
             else old(store.colourId))
      && store.viewId == old(store.viewId)
      && (store.languageModelId == -1 ==> model == None && hasView == old(hasView))
      && (store.languageModelId != -1 ==>
            && model == Some(ModelFor(store.languageModelId))
            && hasView == (old(hasView) || (store.viewId != -1 && hasScreen)))
      && calls == old(calls)
           + InstallCalls(old(trainBuffer), old(model).Some?)
           + (if store.languageModelId != -1
              then ModelCreationCalls(store.languageModelId, true, store.systemLoc, store.userLoc,
                                      alphabet.value.trainingFile, store.viewId, hasScreen)
              else [])
           + StartCalls() + StartCalls()
    }

    /** BP_MOUSEPOS_MODE, and LP_DASHER_FONTSIZE by falling through to it:
        while paused the box follows the mode; a redraw is requested. */
    twostate predicate MousePosEffect()
      reads this, store
    {
      && store.redraw
      && store.mousePosBox
         == (if !store.paused then old(store.mousePosBox)
             else if store.mousePosMode then 1 else -1)
      && unchanged(this`calls, store`paused, store`realOrientation)
      && SessionKept()
    }

    /** Any other parameter: nothing changes. */
    twostate predicate NoEffect()
      reads this, store
    {
      && unchanged(this`calls, store`paused, store`redraw, store`mousePosBox)
      && unchanged(store`realOrientation)
      && SessionKept()
    }

    /** The dispatch table, arm by arm. */
    twostate predicate ParameterEffect(p: Parameter)
      reads this, store
    {
      match p
      case ColourMode => ColourModeEffect()
      case OutlineMode => RedrawOnlyEffect()
      case Orientation => OrientationEffect()
      case AlphabetId => AlphabetEffect()
      case ColourId => ColourIdEffect()
      case LanguageModelId => LanguageModelEffect()
      case LineWidth => RedrawOnlyEffect()
      case FontSize => MousePosEffect()
      case MousePosMode => MousePosEffect()
      case _ => NoEffect()
    }

    /** The orchestrator's reaction to an event: parameter notifications go
        to the dispatch table, edits to the context and training buffer,
        control events to stop or pause; anything else is ignored. */
    method InterfaceEventHandler(e: Event)
      requires HandlerDefined(e)
      modifies this
      modifies store`paused, store`redraw, store`training, store`mousePosBox
      modifies store`realOrientation, store`trainFile, store`gameTextFile, store`colourId
      modifies store`viewId
      ensures e.ParameterChanged? ==> ParameterEffect(e.parameter) && context == old(context)
      ensures e.ParameterChanged? && Reacts(e.parameter) ==> store.redraw
      ensures e.Edit? && e.editType == EditInsert ==>
        && context == InsertIntoContext(old(context), e.text)
        && trainBuffer == old(trainBuffer) + e.text
      ensures e.Edit? && e.editType == EditDelete ==>
        && context == DeleteTail(old(context), |e.text|)
        && trainBuffer == DeleteTail(old(trainBuffer), |e.text|)
      ensures e.Edit? && e.editType != EditInsert && e.editType != EditDelete ==>
        context == old(context) && trainBuffer == old(trainBuffer)
      ensures e.Edit? ==>
        && unchanged(this`alphabet, this`model, this`hasView, this`calls)
        && unchanged(store`paused, store`redraw, store`training, store`mousePosBox)
        && unchanged(store`realOrientation, store`trainFile, store`gameTextFile, store`colourId)
        && unchanged(store`viewId)
      ensures e.Control? ==>
        && unchanged(this`context, this`trainBuffer, this`alphabet, this`model, this`hasView)
        && unchanged(store`training, store`realOrientation, store`trainFile)
        && unchanged(store`gameTextFile, store`colourId, store`viewId)
      ensures e == Control(Stop) ==>
        && store.paused && store.redraw
        && store.mousePosBox == (if store.mousePosMode then 1 else old(store.mousePosBox))
        && calls == old(calls) + PauseAtCalls()
      ensures e == Control(Pause) ==>
        && store.paused && store.redraw == old(store.redraw)
        && store.mousePosBox == (if store.mousePosMode then 1 else old(store.mousePosBox))
        && calls == old(calls) + old(HaltCalls())
      ensures e.Control? && e.action.OtherControl? ==>
        unchanged(this`calls, store`paused, store`redraw, store`mousePosBox)
      ensures e.OtherEvent? ==>
        && unchanged(this)
        && unchanged(store`paused, store`redraw, store`training, store`mousePosBox)
        && unchanged(store`realOrientation, store`trainFile, store`gameTextFile, store`colourId)
        && unchanged(store`viewId)
    {
      match e
      case ParameterChanged(parameter) =>
        ParameterReaction(parameter);
      case Edit(editType, text) =>
        EditReaction(editType, text);
      case Control(action) =>
        match action {
          case Stop => PauseAt(0, 0);
          case Pause => Halt();
          case OtherControl(_) =>
        }
      case OtherEvent(_) =>
    }

    /** The dispatch table for parameter notifications.  LP_DASHER_FONTSIZE
        has no `break` and falls through into the BP_MOUSEPOS_MODE arm. */
    method ParameterReaction(parameter: Parameter)
      requires HandlerDefined(ParameterChanged(parameter))
      modifies this`trainBuffer, this`alphabet, this`model, this`hasView, this`calls
      modifies store`paused, store`redraw, store`training, store`mousePosBox
      modifies store`realOrientation, store`trainFile, store`gameTextFile, store`colourId
      modifies store`viewId
      ensures ParameterEffect(parameter)
      ensures Reacts(parameter) ==> store.redraw
    {
      match parameter {
        case ColourMode => ColourModeReaction();
        case OutlineMode => RequestFullRedraw();
        case Orientation => OrientationReaction();
        case AlphabetId => AlphabetReaction();
        case ColourId => ColourIdReaction();
        case LanguageModelId => LanguageModelReaction();
        case LineWidth => RequestFullRedraw();
        case FontSize => FontSizeReaction();
        case MousePosMode => MousePosReaction();
        case _ =>
      }
    }

    method RequestFullRedraw()
      modifies store`redraw
      ensures store.redraw
    {
      store.redraw := true;
    }

    /** The BP_COLOUR_MODE arm. */
    method ColourModeReaction()
      modifies this`calls, store`paused, store`redraw, store`mousePosBox
      ensures ColourModeEffect()
    {
      Start();
      RequestFullRedraw();
    }

    /** The LP_ORIENTATION arm. */
    method OrientationReaction()
      requires store.orientation == AlphabetDefault ==> alphabet.Some?
      modifies store`realOrientation, store`redraw
      ensures OrientationEffect()
    {
      if store.orientation == AlphabetDefault {
        store.realOrientation := alphabet.value.orientation;
      } else {
        store.realOrientation := store.orientation;
      }
      RequestFullRedraw();
    }

    /** The SP_COLOUR_ID arm. */
    method ColourIdReaction()
      modifies this`calls, store`redraw
      ensures ColourIdEffect()
    {
      calls := calls + [ColoursChanged(store.colourId)];
      RequestFullRedraw();
    }

    /** The LP_LANGUAGE_MODEL_ID arm: rebuild the model, start, redraw. */
    method LanguageModelReaction()
      requires store.languageModelId != -1 ==> alphabet.Some?
      modifies this`model, this`hasView, this`calls
      modifies store`viewId, store`paused, store`redraw, store`mousePosBox
      ensures LanguageModelEffect()
    {
      RebuildModelAndStart();
      RequestFullRedraw();
    }

    /** The SP_ALPHABET_ID arm: switch to the selected alphabet, adopt its
        orientation when the option asks for the alphabet default, start
        (a second time) and request a full redraw. */
    method AlphabetReaction()
      modifies this`trainBuffer, this`alphabet, this`model, this`hasView, this`calls
      modifies store`training, store`trainFile, store`gameTextFile, store`colourId
      modifies store`viewId, store`paused, store`redraw, store`mousePosBox, store`realOrientation
      ensures AlphabetEffect()
    {
      ChangeAlphabet(store.alphabetId);
      AdoptAlphabetOrientation();
      Start();
      RequestFullRedraw();
    }

    /** After an alphabet switch the orientation in use becomes the
        alphabet's when the option asks for the alphabet default. */
    method AdoptAlphabetOrientation()
      requires alphabet.Some?
      modifies store`realOrientation
      ensures store.realOrientation
           == if store.orientation == AlphabetDefault then alphabet.value.orientation
              else old(store.realOrientation)
    {
      if store.orientation == AlphabetDefault {
        store.realOrientation := alphabet.value.orientation;
      }
    }

    /** The LP_DASHER_FONTSIZE arm: a redraw, then on into the
        BP_MOUSEPOS_MODE arm. */
    method FontSizeReaction()
      modifies store`mousePosBox, store`redraw
      ensures MousePosEffect()
    {
      RequestFullRedraw();
      MousePosReaction();
    }

    /** The BP_MOUSEPOS_MODE arm. */
    method MousePosReaction()
      modifies store`mousePosBox, store`redraw
      ensures MousePosEffect()
    {
      if store.paused {
        if store.mousePosMode {
          store.mousePosBox := 1;
        } else {
          store.mousePosBox := -1;
        }
      }
      RequestFullRedraw();
    }

    /** An edit event: type 1 appends the text to the context (kept to its
        last twenty characters) and to the training buffer; type 2 removes
        as many characters as the text holds from both, with the size
        arithmetic of `substr`; other types are ignored. */
    method EditReaction(editType: int, text: string)
      modifies this`context, this`trainBuffer
      ensures editType == EditInsert ==>
        context == InsertIntoContext(old(context), text) && trainBuffer == old(trainBuffer) + text
      ensures editType == EditDelete ==>
        && context == DeleteTail(old(context), |text|)
        && trainBuffer == DeleteTail(old(trainBuffer), |text|)
      ensures editType != EditInsert && editType != EditDelete ==>
        context == old(context) && trainBuffer == old(trainBuffer)
    {
      if editType == EditInsert {
        context := InsertIntoContext(context, text);
        trainBuffer := trainBuffer + text;
      } else if editType == EditDelete {
        context := DeleteTail(context, |text|);
        trainBuffer := DeleteTail(trainBuffer, |text|);
      }
    }
  }
}
