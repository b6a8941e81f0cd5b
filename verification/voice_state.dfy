/**
  The conversation phase shown by the orb: the `VoiceState` enum, its
  `String` raw values (synthesised by Swift for a `String`-backed enum) and
  its display `label`.
 */
module VoiceStates {
  import opened Options

  datatype VoiceState = Idle | Listening | Thinking | Speaking

  /** The raw value Swift gives each case of `enum VoiceState: String`: the case name. */
  function RawValue(s: VoiceState): (r: string)
    ensures |r| > 0
    ensures forall i :: 0 <= i < |r| ==> 'a' <= r[i] <= 'z'
  {
    match s
    case Idle => "idle"
    case Listening => "listening"
    case Thinking => "thinking"
    case Speaking => "speaking"
  }

  /** Swift's failable `init?(rawValue:)`: the case whose raw value is `raw`, if any. */
  function FromRawValue(raw: string): (r: Option<VoiceState>)
    ensures r.Some? ==> RawValue(r.value) == raw
    ensures r.None? ==> forall s: VoiceState :: RawValue(s) != raw
  {
    if raw == "idle" then Some(Idle)
    else if raw == "listening" then Some(Listening)
    else if raw == "thinking" then Some(Thinking)
    else if raw == "speaking" then Some(Speaking)
    else None
  }

  /** Upper-cases an ASCII lower-case letter and leaves every other character alone. */
  function UpperAscii(c: char): char
  {
    if 'a' <= c <= 'z' then (c as int - 32) as char else c
  }

  /** The word with its first character upper-cased. */
  function Capitalize(w: string): string
  {
    if w == [] then [] else [UpperAscii(w[0])] + w[1..]
  }

  /** The display label of each phase: its raw value with a capital first letter. */
  function Label(s: VoiceState): (r: string)
    ensures |r| == |RawValue(s)| && r[1..] == RawValue(s)[1..]
    ensures 'A' <= r[0] <= 'Z' && r[0] as int == RawValue(s)[0] as int - 32
  {
    match s
    case Idle => "Idle"
    case Listening => "Listening"
    case Thinking => "Thinking"
    case Speaking => "Speaking"
  }

  /** The label is exactly the capitalised raw value. */
  lemma LabelCapitalizesRawValue(s: VoiceState)
    ensures Label(s) == Capitalize(RawValue(s))
  {
  }

  /** Decoding a raw value gives back the case it came from. */
  lemma RawValueRoundTrip(s: VoiceState)
    ensures FromRawValue(RawValue(s)) == Some(s)
  {
  }

  /** Distinct phases have distinct labels, so the label identifies the phase. */
  lemma LabelInjective(s: VoiceState, t: VoiceState)
    ensures Label(s) == Label(t) <==> s == t
  {
  }
}
