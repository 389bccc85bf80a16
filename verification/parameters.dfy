/**
 * The shared parameter store and the events that the engine's components
 * receive.  The store is a mutable object that the session orchestrator and
 * the input filters both hold a reference to, with one mutable field per
 * parameter that the core reads or writes.
 */
module Parameters {

  /** Value of the orientation option that means "use the alphabet's own
      orientation" (Opts::AlphabetDefault; its header is not part of this
      model). */
  const AlphabetDefault: int := -2

  /** The settings store, holding one field per parameter that the core
      reads or writes.  Writes are plain field updates; the change
      notifications the real store sends are delivered by the caller, who
      invokes the components' event handlers explicitly.  The initial values
      come from the store's backend and are left arbitrary here. */
  class SettingsStore {
    var paused: bool           // BP_DASHER_PAUSED
    var redraw: bool           // BP_REDRAW
    var training: bool         // BP_TRAINING
    var mousePosMode: bool     // BP_MOUSEPOS_MODE
    var paletteChange: bool    // BP_PALETTE_CHANGE
    var buttonSteady: bool     // BP_BUTTONSTEADY
    var buttonPulsing: bool    // BP_BUTTONPULSING
    var mousePosBox: int       // LP_MOUSE_POS_BOX
    var orientation: int       // LP_ORIENTATION
    var realOrientation: int   // LP_REAL_ORIENTATION
    var languageModelId: int   // LP_LANGUAGE_MODEL_ID
    var viewId: int            // LP_VIEW_ID
    var alphabetId: string     // SP_ALPHABET_ID
    var colourId: string       // SP_COLOUR_ID
    var trainFile: string      // SP_TRAIN_FILE
    var gameTextFile: string   // SP_GAME_TEXT_FILE
    var systemLoc: string      // SP_SYSTEM_LOC
    var userLoc: string        // SP_USER_LOC

    constructor ()
    {
    }
  }

  /** Identifiers that appear in a parameter-change notification.  Every
      identifier without a reaction of its own is an `OtherParameter`. */
  datatype Parameter =
    | ColourMode        // BP_COLOUR_MODE
    | OutlineMode       // BP_OUTLINE_MODE
    | Orientation       // LP_ORIENTATION
    | AlphabetId        // SP_ALPHABET_ID
    | ColourId          // SP_COLOUR_ID
    | LanguageModelId   // LP_LANGUAGE_MODEL_ID
    | LineWidth         // LP_LINE_WIDTH
    | FontSize          // LP_DASHER_FONTSIZE
    | MousePosMode      // BP_MOUSEPOS_MODE
    | ButtonSteady      // BP_BUTTONSTEADY
    | ButtonPulsing     // BP_BUTTONPULSING
    | OtherParameter(id: int)

  /** Actions carried by a control event. */
  datatype ControlAction = Stop | Pause | OtherControl(id: int)

  /** Edit-event kinds: 1 inserts text, 2 deletes as many characters as the
      text holds; every other kind is ignored by the core. */
  const EditInsert: int := 1
  const EditDelete: int := 2

  /** The events delivered to the components' handlers. */
  datatype Event =
    | ParameterChanged(parameter: Parameter)   // event type 1
    | Edit(editType: int, text: string)        // event type 2
    | Control(action: ControlAction)           // EV_CONTROL
    | OtherEvent(eventType: int)               // any other event type
}
