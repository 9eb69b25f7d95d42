/** The spoken guidance: choosing a female Portuguese voice from the voices
    the browser offers, and turning a sequence of speech segments into the
    utterances spoken one after another, with a default rate and pitch. */
module TtsService {
  import opened Common

  /** A speech-synthesis voice, by name and BCP 47 language tag. */
  datatype Voice = Voice(name: string, lang: string)

  /** `s.includes(sub)`: sub occurs in s at some position. */
  predicate Contains(s: string, sub: string)
    decreases |s|
  {
    sub <= s || (|s| > 0 && Contains(s[1..], sub))
  }

  /** `toLowerCase` on the ASCII letters; every other character is kept. */
  function LowerChar(c: char): (l: char)
    ensures 'A' <= c <= 'Z' ==> 'a' <= l <= 'z'
    ensures !('A' <= c <= 'Z') ==> l == c
  {
    if 'A' <= c <= 'Z' then (c as int - 'A' as int + 'a' as int) as char else c
  }

  /** `toLowerCase` on a string: no ASCII capital remains, every other
      character is kept in place, and the length is unchanged. */
  function ToLower(s: string): (t: string)
    ensures |t| == |s|
    ensures forall i :: 0 <= i < |t| ==> !('A' <= t[i] <= 'Z')
    ensures forall i :: 0 <= i < |s| && !('A' <= s[i] <= 'Z') ==> t[i] == s[i]
  {
    seq(|s|, i requires 0 <= i < |s| => LowerChar(s[i]))
  }

  /** Lower-casing twice is lower-casing once. */
  lemma ToLowerIdempotent(s: string)
    ensures ToLower(ToLower(s)) == ToLower(s)
  {
    var t := ToLower(s);
    assert forall i :: 0 <= i < |t| ==> ToLower(t)[i] == t[i];
  }

  /** `voice.lang.includes('pt')`. */
  predicate IsPt(v: Voice) {
    Contains(v.lang, "pt")
  }

  /** One test on a voice name, tried in priority order. */
  datatype NameRule =
    | Includes(text: string)
    | IncludesIgnoringCase(text: string)

  predicate Matches(rule: NameRule, v: Voice) {
    match rule
    case Includes(text) => Contains(v.name, text)
    case IncludesIgnoringCase(text) => Contains(ToLower(v.name), text)
  }

  /** Chrome's high-quality voice, then the macOS/iOS voices, then any
      voice whose name says it is female. */
  const Rules: seq<NameRule> := [
    Includes("Google Português"),
    Includes("Luciana"),
    Includes("Joana"),
    Includes("Maria"),
    IncludesIgnoringCase("female")
  ]

  /** `voices.filter(voice => voice.lang.includes('pt'))`. */
  function PtVoices(voices: seq<Voice>): (pt: seq<Voice>)
    ensures |pt| <= |voices|
    ensures forall v :: v in pt <==> v in voices && IsPt(v)
  {
    if voices == [] then []
    else (if IsPt(voices[0]) then [voices[0]] else []) + PtVoices(voices[1..])
  }

  /** The index of the first voice matching the rule, or |vs|. */
  function FirstMatch(vs: seq<Voice>, rule: NameRule): (i: nat)
    ensures i <= |vs|
    ensures i < |vs| ==> Matches(rule, vs[i])
    ensures forall j :: 0 <= j < i ==> !Matches(rule, vs[j])
  {
    if vs == [] then 0
    else if Matches(rule, vs[0]) then 0
    else 1 + FirstMatch(vs[1..], rule)
  }

  /** `vs.find(v => rule matches v)`. */
  function Find(vs: seq<Voice>, rule: NameRule): Option<Voice> {
    var i := FirstMatch(vs, rule);
    if i < |vs| then Some(vs[i]) else None
  }

  /** The `||` chain: the first rule that finds a voice decides, and
      without one the first voice is taken, if there is any. */
  function Select(pt: seq<Voice>, rules: seq<NameRule>): Option<Voice> {
    if rules == [] then (if |pt| > 0 then Some(pt[0]) else None)
    else
      match Find(pt, rules[0])
      case Some(v) => Some(v)
      case None => Select(pt, rules[1..])
  }

  /** `getFemalePtVoice`. */
  function FemalePtVoice(voices: seq<Voice>): Option<Voice> {
    Select(PtVoices(voices), Rules)
  }

  /** A reference definition of one step of the chain, on the unfiltered
      list: the first voice, in the browser's order, that is Portuguese and
      matches the rule. */
  function FirstPtMatch(voices: seq<Voice>, rule: NameRule): Option<Voice> {
    if voices == [] then None
    else if IsPt(voices[0]) && Matches(rule, voices[0]) then Some(voices[0])
    else FirstPtMatch(voices[1..], rule)
  }

  /** Filtering and then searching finds the same voice as searching the
      unfiltered list for a Portuguese match. */
  lemma {:induction false} FindOnPtIsFirstPtMatch(voices: seq<Voice>, rule: NameRule)
    ensures Find(PtVoices(voices), rule) == FirstPtMatch(voices, rule)
  {
    if voices != [] {
      FindOnPtIsFirstPtMatch(voices[1..], rule);
      var rest := PtVoices(voices[1..]);
      if IsPt(voices[0]) {
        assert PtVoices(voices) == [voices[0]] + rest;
        assert ([voices[0]] + rest)[1..] == rest;
      } else {
        assert PtVoices(voices) == rest;
      }
    }
  }

  /** A selection from a list is an element of it, and there is none only
      for an empty list. */
  lemma {:induction false} SelectFromList(pt: seq<Voice>, rules: seq<NameRule>)
    ensures Select(pt, rules).None? <==> pt == []
    ensures Select(pt, rules).Some? ==> Select(pt, rules).value in pt
  {
    if rules != [] {
      SelectFromList(pt, rules[1..]);
    }
  }

  /** No voice is chosen exactly when no voice is Portuguese, and a chosen
      voice is always one of the offered voices and Portuguese. */
  lemma FemalePtVoiceIsPt(voices: seq<Voice>)
    ensures FemalePtVoice(voices).None? <==> forall v :: v in voices ==> !IsPt(v)
    ensures FemalePtVoice(voices).Some? ==>
              FemalePtVoice(voices).value in voices && IsPt(FemalePtVoice(voices).value)
  {
    var pt := PtVoices(voices);
    SelectFromList(pt, Rules);
    if pt != [] {
      assert pt[0] in pt;
    }
  }

  /** The rules are tried in order: when rules[0 .. k - 1] find nothing
      and rules[k] finds a voice, that voice is chosen. */
  lemma {:induction false} SelectByFirstFindingRule(pt: seq<Voice>, rules: seq<NameRule>, k: nat)
    requires k < |rules|
    requires forall r :: 0 <= r < k ==> Find(pt, rules[r]).None?
    requires Find(pt, rules[k]).Some?
    ensures Select(pt, rules) == Find(pt, rules[k])
  {
    if k > 0 {
      assert Find(pt, rules[0]).None?;
      assert forall r :: 0 <= r < k - 1 ==> rules[1..][r] == rules[r + 1];
      SelectByFirstFindingRule(pt, rules[1..], k - 1);
    }
  }

  /** When no rule finds a voice, the first voice is chosen. */
  lemma {:induction false} SelectFallsBackToFirst(pt: seq<Voice>, rules: seq<NameRule>)
    requires forall r :: 0 <= r < |rules| ==> Find(pt, rules[r]).None?
    ensures Select(pt, rules) == (if |pt| > 0 then Some(pt[0]) else None)
  {
    if rules != [] {
      assert Find(pt, rules[0]).None?;
      assert forall r :: 0 <= r < |rules| - 1 ==> rules[1..][r] == rules[r + 1];
      SelectFallsBackToFirst(pt, rules[1..]);
    }
  }

  /** Priority of `getFemalePtVoice`: the chosen voice is the first
      Portuguese voice, in the browser's order, matching the first of
      "Google Português", "Luciana", "Joana", "Maria", "female" (ignoring
      case) that any Portuguese voice matches. */
  lemma FemalePtVoicePriority(voices: seq<Voice>, k: nat)
    requires k < |Rules|
    requires forall r :: 0 <= r < k ==> FirstPtMatch(voices, Rules[r]).None?
    requires FirstPtMatch(voices, Rules[k]).Some?
    ensures FemalePtVoice(voices) == FirstPtMatch(voices, Rules[k])
  {
    var pt := PtVoices(voices);
    forall r | 0 <= r < |Rules|
      ensures Find(pt, Rules[r]) == FirstPtMatch(voices, Rules[r])
    {
      FindOnPtIsFirstPtMatch(voices, Rules[r]);
    }
    SelectByFirstFindingRule(pt, Rules, k);
  }

  /** When no Portuguese voice matches any rule, the first Portuguese voice
      is chosen. */
  lemma FemalePtVoiceFallback(voices: seq<Voice>)
    requires forall r :: 0 <= r < |Rules| ==> FirstPtMatch(voices, Rules[r]).None?
    ensures FemalePtVoice(voices) == (if |PtVoices(voices)| > 0 then Some(PtVoices(voices)[0]) else None)
  {
    var pt := PtVoices(voices);
    forall r | 0 <= r < |Rules|
      ensures Find(pt, Rules[r]).None?
    {
      FindOnPtIsFirstPtMatch(voices, Rules[r]);
    }
    SelectFallsBackToFirst(pt, Rules);
  }

  /** One segment of a guided sequence; an absent field is None. */
  datatype SpeechSegment = SpeechSegment(text: string, rate: Option<real>, pitch: Option<real>, volume: Option<real>)

  /** An utterance handed to the synthesiser. */
  datatype Utterance = Utterance(text: string, lang: string, rate: real, pitch: real, voice: Option<Voice>)

  const DefaultRate: real := 0.9
  const DefaultPitch: real := 1.0

  /** `speakInstructions`: a Brazilian Portuguese utterance at the given
      rate and pitch, with the chosen voice when there is one. */
  function MakeUtterance(text: string, rate: real, pitch: real, voices: seq<Voice>): (u: Utterance)
    ensures u.voice == FemalePtVoice(voices)
    ensures u.voice.Some? ==> IsPt(u.voice.value)
  {
    FemalePtVoiceIsPt(voices);
    Utterance(text, "pt-BR", rate, pitch, FemalePtVoice(voices))
  }

  /** `speakSequence`: nothing is spoken without speech synthesis;
      otherwise each segment in turn, its rate defaulting to 0.9 and its
      pitch to 1.0. Each segment's utterance reads the browser's voice list
      afresh, and voices load asynchronously, so `voicesAt(i)` is the list
      the browser offers when segment i is spoken. */
  method SpeakSequence(segments: seq<SpeechSegment>, supported: bool, voicesAt: nat -> seq<Voice>)
    returns (spoken: seq<Utterance>)
    ensures !supported ==> spoken == []
    ensures supported ==> |spoken| == |segments|
    ensures supported ==> forall i :: 0 <= i < |segments| ==>
              spoken[i] == MakeUtterance(segments[i].text,
                                         OrDefault(segments[i].rate, DefaultRate),
                                         OrDefault(segments[i].pitch, DefaultPitch), voicesAt(i))
    ensures forall i :: 0 <= i < |spoken| ==> spoken[i].rate != 0.0 && spoken[i].pitch != 0.0
  {
    spoken := [];
    if !supported {
      return;
    }
    for i := 0 to |segments|
      invariant |spoken| == i
      invariant forall j :: 0 <= j < i ==>
                  spoken[j] == MakeUtterance(segments[j].text,
                                             OrDefault(segments[j].rate, DefaultRate),
                                             OrDefault(segments[j].pitch, DefaultPitch), voicesAt(j))
    {
      var segment := segments[i];
      var u := MakeUtterance(segment.text, OrDefault(segment.rate, DefaultRate),
                             OrDefault(segment.pitch, DefaultPitch), voicesAt(i));
      spoken := spoken + [u];
    }
  }
}
