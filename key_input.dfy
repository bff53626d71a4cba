/**
 * Keyboard input to terminal bytes.  Each pressed key is encoded as C0 control
 * characters or as a control sequence in xterm's cursor-key style (ECMA-48,
 * section 5.2 for the C0 set and section 5.4 for control sequences); text is
 * passed through only while the modifiers of the last pressed key are none or
 * shift alone.  The bytes of one frame's events are sent as one message when
 * there are any.
 */
module KeyInput {
  import opened Wrappers

  type byte = bv8

  /** The toolkit's modifier state. */
  datatype Modifiers = Modifiers(alt: bool, ctrl: bool, shift: bool, macCmd: bool, command: bool)
  {
    /** Some modifier is held. */
    predicate Any()
    {
      alt || ctrl || shift || macCmd || command
    }

    /** No modifier is held (equal to the default state). */
    predicate IsNone()
    {
      !alt && !ctrl && !shift && !macCmd && !command
    }

    /** Shift, with neither alt nor the command key. */
    predicate ShiftOnly()
    {
      shift && !(alt || command)
    }
  }

  function NoModifiers(): Modifiers
  {
    Modifiers(false, false, false, false, false)
  }

  // C0 controls (ECMA-48 section 5.2) and the bytes of the sequences used.
  const ETX: byte := 0x03  // control-C
  const BS: byte := 0x08
  const HT: byte := 0x09
  const CR: byte := 0x0D
  const SUB: byte := 0x1A  // control-Z
  const ESC: byte := 0x1B
  const DEL: byte := 0x7F
  const DIGIT_ONE: byte := 0x31
  const DIGIT_THREE: byte := 0x33
  const SEMICOLON: byte := 0x3B
  const LETTER_O: byte := 0x4F
  const LETTER_Z: byte := 0x5A
  const LEFT_BRACKET: byte := 0x5B
  const TILDE: byte := 0x7E

  datatype Key = ArrowUp | ArrowDown | ArrowRight | ArrowLeft
    | Backspace | Tab | Enter | Escape | Delete | C | Z | OtherKey

  datatype Event =
    | KeyEvent(key: Key, pressed: bool, modifiers: Modifiers)
    | Text(text: seq<byte>)
    | OtherEvent

  predicate IsArrow(k: Key)
  {
    k.ArrowUp? || k.ArrowDown? || k.ArrowRight? || k.ArrowLeft?
  }

  /** The final letter of an arrow key's sequence. */
  function ArrowLetter(k: Key): (b: byte)
    requires IsArrow(k)
    ensures 0x41 <= b <= 0x44
  {
    match k
    case ArrowUp => 0x41
    case ArrowDown => 0x42
    case ArrowRight => 0x43
    case ArrowLeft => 0x44
  }

  /** The byte that introduces a cursor key: `O` in application cursor mode, else `[`. */
  function CursorMode(appCursor: bool): (b: byte)
    ensures b == LETTER_O <==> appCursor
    ensures b == LEFT_BRACKET <==> !appCursor
  {
    if appCursor then LETTER_O else LEFT_BRACKET
  }

  /** The xterm modifier parameter: `1` plus 1 for shift, 2 for alt, 4 for the command key,
    * built by setting bits. */
  function Numeric(m: Modifiers): (n: byte)
    ensures n == DIGIT_ONE + (if m.shift then 1 else 0) + (if m.alt then 2 else 0) + (if m.command then 4 else 0)
    ensures DIGIT_ONE <= n <= 0x38
  {
    var s: byte := if m.shift then 1 else 0;
    var a: byte := if m.alt then s | 2 else s;
    var c: byte := if m.command then a | 4 else a;
    c + DIGIT_ONE
  }

  /** Reads shift, alt and the command key back out of a modifier parameter. */
  function ModifierBits(n: byte): (bool, bool, bool)
  {
    var v := n - DIGIT_ONE;
    (v & 1 != 0, v & 2 != 0, v & 4 != 0)
  }

  /** The parameter keeps shift, alt and the command key exactly; control and the Mac
    * command key leave no trace in it. */
  lemma NumericRoundTrip(m: Modifiers)
    ensures ModifierBits(Numeric(m)) == (m.shift, m.alt, m.command)
    ensures Numeric(m) == Numeric(m.(ctrl := false, macCmd := false))
  {
  }

  /** A control sequence as ECMA-48 section 5.4 defines it, in its 7-bit form: the
    * introducer `ESC [`, parameter bytes 0x30 to 0x3F, then one final byte 0x40 to 0x7E. */
  predicate ControlSequence(s: seq<byte>)
  {
    && |s| >= 3
    && s[0] == ESC && s[1] == LEFT_BRACKET
    && (forall k :: 2 <= k < |s| - 1 ==> 0x30 <= s[k] <= 0x3F)
    && 0x40 <= s[|s| - 1] <= 0x7E
  }

  /** A byte of the C0 set or DEL: a control character, not printable text. */
  predicate Control(b: byte)
  {
    b < 0x20 || b == DEL
  }

  /** The key encoding as the code writes it.  A modified arrow key keeps the cursor-mode
    * byte after the parameters, and shift-Tab has no `ESC`. */
  function EncodeKeyAsWritten(k: Key, m: Modifiers, mode: byte): seq<byte>
  {
    match k
    case ArrowUp | ArrowDown | ArrowRight | ArrowLeft =>
      [ESC] + (if m.Any() then [LEFT_BRACKET, DIGIT_ONE, SEMICOLON, Numeric(m)] else [])
      + [mode, ArrowLetter(k)]
    case Backspace =>
      if m.shift then [BS] else if m.alt then [ESC, DEL] else [DEL]
    case Tab =>
      if m.shift then [LEFT_BRACKET, LETTER_Z] else [HT]
    case Enter =>
      (if m.alt then [ESC] else []) + [CR]
    case Escape =>
      (if m.alt then [ESC] else []) + [ESC]
    case Delete =>
      [ESC, LEFT_BRACKET, DIGIT_THREE] + (if m.Any() then [SEMICOLON, Numeric(m)] else []) + [TILDE]
    case C =>
      if m.command then [ETX] else []
    case Z =>
      if m.command then [SUB] else []
    case OtherKey =>
      []
  }

  /** The key encoding with a modified arrow sent as `ESC [ 1 ; n letter` and shift-Tab as
    * `ESC [ Z`, as xterm sends them. */
  function EncodeKey(k: Key, m: Modifiers, mode: byte): seq<byte>
  {
    match k
    case ArrowUp | ArrowDown | ArrowRight | ArrowLeft =>
      if m.Any() then [ESC, LEFT_BRACKET, DIGIT_ONE, SEMICOLON, Numeric(m), ArrowLetter(k)]
      else [ESC, mode, ArrowLetter(k)]
    case Backspace =>
      if m.shift then [BS] else if m.alt then [ESC, DEL] else [DEL]
    case Tab =>
      if m.shift then [ESC, LEFT_BRACKET, LETTER_Z] else [HT]
    case Enter =>
      if m.alt then [ESC, CR] else [CR]
    case Escape =>
      if m.alt then [ESC, ESC] else [ESC]
    case Delete =>
      if m.Any() then [ESC, LEFT_BRACKET, DIGIT_THREE, SEMICOLON, Numeric(m), TILDE]
      else [ESC, LEFT_BRACKET, DIGIT_THREE, TILDE]
    case C =>
      if m.command then [ETX] else []
    case Z =>
      if m.command then [SUB] else []
    case OtherKey =>
      []
  }

  /** The two encodings differ exactly on modified arrow keys and on shift-Tab. */
  lemma EncodersDiffer(k: Key, m: Modifiers, mode: byte)
    ensures EncodeKeyAsWritten(k, m, mode) != EncodeKey(k, m, mode)
      <==> (IsArrow(k) && m.Any()) || (k == Tab && m.shift)
  {
    var w, e := EncodeKeyAsWritten(k, m, mode), EncodeKey(k, m, mode);
    if IsArrow(k) && m.Any() {
      assert |w| == 7 && |e| == 6;
    } else if k == Tab && m.shift {
      assert w[0] != e[0];
    }
  }

  /** As written, a modified arrow key sends a control sequence that ends at the cursor-mode
    * byte (both `[` and `O` are final bytes), followed by a stray letter. */
  lemma ArrowAsWrittenMalformed(k: Key, m: Modifiers, appCursor: bool)
    requires IsArrow(k) && m.Any()
    ensures var s := EncodeKeyAsWritten(k, m, CursorMode(appCursor));
      && |s| == 7
      && ControlSequence(s[..6])
      && s[6] == ArrowLetter(k)
      && !ControlSequence(s)
  {
  }

  /** As written, shift-Tab sends the two printable bytes `[Z` with no escape at all. */
  lemma ShiftTabAsWrittenLacksEsc(m: Modifiers, mode: byte)
    requires m.shift
    ensures var s := EncodeKeyAsWritten(Tab, m, mode);
      s == [LEFT_BRACKET, LETTER_Z] && ESC !in s && !Control(s[0]) && !Control(s[1])
  {
  }

  /** Every key sends nothing, or a control sequence whose final byte names the key, or an
    * unmodified cursor key in application mode (`ESC O letter`), or control characters only. */
  lemma EncodingsWellFormed(k: Key, m: Modifiers, appCursor: bool)
    ensures var s := EncodeKey(k, m, CursorMode(appCursor));
      && (IsArrow(k) && (m.Any() || !appCursor) ==>
            ControlSequence(s) && s[|s| - 1] == ArrowLetter(k))
      && (IsArrow(k) && !m.Any() && appCursor ==> s == [ESC, LETTER_O, ArrowLetter(k)])
      && (k == Delete ==> ControlSequence(s) && s[|s| - 1] == TILDE)
      && (k == Tab && m.shift ==> ControlSequence(s) && s[|s| - 1] == LETTER_Z)
      && (!IsArrow(k) && k != Delete && !(k == Tab && m.shift) ==> forall b | b in s :: Control(b))
  {
  }

  /** Which key encoding a run of events is sent with: the code as written, or the
    * corrected one. */
  datatype Encoder = AsWritten | Corrected

  function KeyBytes(enc: Encoder, k: Key, m: Modifiers, mode: byte): seq<byte>
  {
    match enc
    case AsWritten => EncodeKeyAsWritten(k, m, mode)
    case Corrected => EncodeKey(k, m, mode)
  }

  /** In both encodings a modified arrow or Delete starts `ESC [ d ;` followed by its modifier
    * parameter, from which shift, alt and the command key can be read back.  The corrected
    * encoding ends right after it with the final byte; as written, a modified arrow puts the
    * cursor-mode byte between the parameter and the letter. */
  lemma ModifiedKeyCarriesParameter(enc: Encoder, k: Key, m: Modifiers, mode: byte)
    requires IsArrow(k) || k == Delete
    requires m.Any()
    ensures var s := KeyBytes(enc, k, m, mode);
      && |s| >= 6 && s[0] == ESC && s[1] == LEFT_BRACKET && s[3] == SEMICOLON
      && ModifierBits(s[4]) == (m.shift, m.alt, m.command)
    ensures var s := KeyBytes(enc, k, m, mode);
      && (enc == Corrected ==> |s| == 6)
      && (enc == AsWritten && IsArrow(k) ==> s[5..] == [mode, ArrowLetter(k)])
      && (enc == AsWritten && k == Delete ==> s[5..] == [TILDE])
  {
    NumericRoundTrip(m);
  }

  /** The modifiers in force after an event: a pressed key's own, otherwise unchanged. */
  function NextState(e: Event, state: Modifiers): Modifiers
  {
    if e.KeyEvent? && e.pressed then e.modifiers else state
  }

  /** Text passes through only under no modifiers or shift alone. */
  predicate TextAllowed(state: Modifiers)
  {
    state.IsNone() || state.ShiftOnly()
  }

  /** The bytes one event contributes in the given modifier state. */
  function EventBytes(e: Event, state: Modifiers, mode: byte, enc: Encoder): seq<byte>
  {
    match e
    case KeyEvent(k, pressed, m) => if pressed then KeyBytes(enc, k, m, mode) else []
    case Text(t) => if TextAllowed(state) then t else []
    case OtherEvent => []
  }

  /** The bytes a run of events produces, starting in modifier state `state`. */
  function Encoded(events: seq<Event>, state: Modifiers, mode: byte, enc: Encoder): seq<byte>
  {
    if events == [] then []
    else EventBytes(events[0], state, mode, enc) + Encoded(events[1..], NextState(events[0], state), mode, enc)
  }

  /** The modifier state after a run of events. */
  function FinalState(events: seq<Event>, state: Modifiers): Modifiers
  {
    if events == [] then state else FinalState(events[1..], NextState(events[0], state))
  }

  /** The modifiers of the last pressed key, or none if no key was pressed. */
  function LastPressed(events: seq<Event>): Modifiers
  {
    if events == [] then NoModifiers()
    else
      var e := events[|events| - 1];
      if e.KeyEvent? && e.pressed then e.modifiers else LastPressed(events[..|events| - 1])
  }

  /** Encoding a concatenation encodes the second part in the state the first leaves. */
  lemma {:induction false} EncodedAppend(xs: seq<Event>, ys: seq<Event>, state: Modifiers, mode: byte, enc: Encoder)
    ensures Encoded(xs + ys, state, mode, enc)
      == Encoded(xs, state, mode, enc) + Encoded(ys, FinalState(xs, state), mode, enc)
    ensures FinalState(xs + ys, state) == FinalState(ys, FinalState(xs, state))
  {
    if xs == [] {
      assert xs + ys == ys;
    } else {
      assert (xs + ys)[1..] == xs[1..] + ys;
      EncodedAppend(xs[1..], ys, NextState(xs[0], state), mode, enc);
    }
  }

  /** Starting from no modifiers, the state after a run is the last pressed key's modifiers. */
  lemma {:induction false} FinalStateIsLastPressed(events: seq<Event>)
    ensures FinalState(events, NoModifiers()) == LastPressed(events)
  {
    if events != [] {
      var init, e := events[..|events| - 1], events[|events| - 1];
      assert events == init + [e];
      FinalStateIsLastPressed(init);
      EncodedAppend(init, [e], NoModifiers(), 0, AsWritten);
    }
  }

  /** A text event adds its bytes exactly when the last key pressed before it had no
    * modifiers or shift alone. */
  lemma TextFollowsLastKey(events: seq<Event>, t: seq<byte>, mode: byte, enc: Encoder)
    ensures Encoded(events + [Text(t)], NoModifiers(), mode, enc)
      == Encoded(events, NoModifiers(), mode, enc) + (if TextAllowed(LastPressed(events)) then t else [])
  {
    EncodedAppend(events, [Text(t)], NoModifiers(), mode, enc);
    FinalStateIsLastPressed(events);
  }

  /** A released key adds nothing and leaves the modifier state as it was. */
  lemma ReleasedKeyIgnored(xs: seq<Event>, ys: seq<Event>, k: Key, m: Modifiers, mode: byte, enc: Encoder)
    ensures Encoded(xs + [KeyEvent(k, false, m)] + ys, NoModifiers(), mode, enc)
      == Encoded(xs + ys, NoModifiers(), mode, enc)
  {
    var r := KeyEvent(k, false, m);
    var tail := [r] + ys;
    assert xs + [r] + ys == xs + tail;
    EncodedAppend(xs, tail, NoModifiers(), mode, enc);
    EncodedAppend(xs, ys, NoModifiers(), mode, enc);
    var s := FinalState(xs, NoModifiers());
    assert tail[0] == r && tail[1..] == ys;
    assert EventBytes(r, s, mode, enc) == [] && NextState(r, s) == s;
    assert Encoded(tail, s, mode, enc) == Encoded(ys, s, mode, enc);
  }

  /** A pressed key on which the two encodings differ: a modified arrow, or shift-Tab. */
  predicate Disputed(e: Event)
  {
    e.KeyEvent? && e.pressed
    && ((IsArrow(e.key) && e.modifiers.Any()) || (e.key == Tab && e.modifiers.shift))
  }

  /** Without a modified arrow or shift-Tab, the code as written sends exactly the corrected
    * bytes; with one, the first such key already makes them differ. */
  lemma {:induction false} EncodersAgreeElsewhere(events: seq<Event>, state: Modifiers, mode: byte)
    ensures (forall i :: 0 <= i < |events| ==> !Disputed(events[i])) ==>
      Encoded(events, state, mode, AsWritten) == Encoded(events, state, mode, Corrected)
  {
    if events != [] && forall i :: 0 <= i < |events| ==> !Disputed(events[i]) {
      var e := events[0];
      assert !Disputed(events[0]);
      if e.KeyEvent? && e.pressed {
        EncodersDiffer(e.key, e.modifiers, mode);
      }
      forall i | 0 <= i < |events[1..]|
        ensures !Disputed(events[1..][i])
      {
        assert events[1..][i] == events[i + 1];
      }
      EncodersAgreeElsewhere(events[1..], NextState(e, state), mode);
    }
  }

  /** One step of the event loop: the bytes still to come split into the next event's bytes
    * and the rest, after whatever was already produced. */
  lemma EncodedStep(events: seq<Event>, i: nat, state: Modifiers, mode: byte, enc: Encoder, done: seq<byte>)
    requires i < |events|
    ensures done + Encoded(events[i..], state, mode, enc)
      == done + EventBytes(events[i], state, mode, enc)
         + Encoded(events[i + 1..], NextState(events[i], state), mode, enc)
  {
    assert events[i..][1..] == events[i + 1..];
  }

  /** The body of the event loop: appends the bytes of one event, encoded as the code writes
    * them, and tracks the modifiers of the last pressed key. */
  method Push(inputSequence: seq<byte>, modifiersState: Modifiers, e: Event, cursorMode: byte)
    returns (next: seq<byte>, nextState: Modifiers)
    ensures next == inputSequence + EventBytes(e, modifiersState, cursorMode, AsWritten)
    ensures nextState == NextState(e, modifiersState)
  {
    next, nextState := inputSequence, modifiersState;
    match e {
      case KeyEvent(key, pressed, modifiers) =>
        if pressed {
          nextState := modifiers;
          next := next + EncodeKeyAsWritten(key, modifiers, cursorMode);
        }
      case Text(text) =>
        if TextAllowed(modifiersState) {
          for j := 0 to |text|
            invariant next == inputSequence + text[..j]
          {
            next := next + [text[j]];
          }
          assert text[..|text|] == text;
        }
      case OtherEvent =>
    }
  }

  /** `input_state`: encodes one frame's events in order, as the code writes them, and returns
    * the message to send, which is absent when no byte was produced. */
  method InputState(events: seq<Event>, appCursor: bool) returns (sent: Option<seq<byte>>)
    ensures var bytes := Encoded(events, NoModifiers(), CursorMode(appCursor), AsWritten);
      sent == if bytes == [] then None else Some(bytes)
  {
    var inputSequence: seq<byte> := [];
    var modifiersState := NoModifiers();
    var cursorMode := CursorMode(appCursor);
    assert events[0..] == events;
    for i := 0 to |events|
      invariant Encoded(events, NoModifiers(), cursorMode, AsWritten)
        == inputSequence + Encoded(events[i..], modifiersState, cursorMode, AsWritten)
    {
      EncodedStep(events, i, modifiersState, cursorMode, AsWritten, inputSequence);
      inputSequence, modifiersState := Push(inputSequence, modifiersState, events[i], cursorMode);
    }
    assert events[|events|..] == [];
    assert inputSequence + [] == inputSequence;
    if inputSequence != [] {
      sent := Some(inputSequence);
    } else {
      sent := None;
    }
  }
}
