/** The audio controller of src/audioController.js, reduced to the state that
    decides WHAT is played or spoken: the registry of sample buffers, the
    do-once flags, and the cooldown timers of the two voice lines. The audio
    graph and speech synthesis are recorded as the requests made to them. */
module Audio {
  import opened Wrappers

  /** A registered sample: a file fetched and decoded, or one of the
      procedural buffers. */
  datatype Buffer = Decoded(url: string) | Impulse | Noise(seconds: real) | Thunder

  /** A request to speech synthesis, with the delay after which the caption
      is cleared again. */
  datatype Utterance = Utterance(text: string, pitch: real, rate: real, preferMale: bool, clearAfterMs: int)

  /** A buffer source started on `name`; `lowpass` tells whether it was
      routed through the 400 Hz low-pass filter. */
  datatype Playback = Playback(name: string, buffer: Buffer, rate: real, lowpass: bool)

  const IntroText := "Welcome to the game."
  const DoorText := "Door is locked. Access denied."
  const LaughText := "Ha ha ha ha..."

  const DoorCooldownMs := 5000.0
  const LaughCooldownMs := 10000.0

  const GunshotUrl := "/sounds/gunshot.wav"
  const WalkUrl := "/sounds/walk.wav"

  /** The registry `load()` leaves: both samples decoded when both fetches
      succeed; otherwise the `catch` replaces BOTH by the procedural impulse
      and 0.1 s noise, even when only the second fetch failed. The 0.5 s
      noise and the thunder buffer are always added. */
  function LoadedSounds(gunshotOk: bool, walkOk: bool): (m: map<string, Buffer>)
    ensures m.Keys == {"gunshot", "walk", "reload", "thunder"}
    ensures m["gunshot"].Decoded? <==> gunshotOk && walkOk
    ensures m["walk"].Decoded? <==> gunshotOk && walkOk
    ensures !(gunshotOk && walkOk) ==> m["gunshot"] == Impulse && m["walk"] == Noise(0.1)
    ensures m["reload"] == Noise(0.5) && m["thunder"] == Thunder
  {
    var gunshot := if gunshotOk && walkOk then Decoded(GunshotUrl) else Impulse;
    var walk := if gunshotOk && walkOk then Decoded(WalkUrl) else Noise(0.1);
    map["gunshot" := gunshot, "walk" := walk, "reload" := Noise(0.5), "thunder" := Thunder]
  }

  /** `load()` assigns its four entries one after the other, which overlays
      the registry with `LoadedSounds`. */
  lemma LoadOverlays(before: map<string, Buffer>, gunshotOk: bool, walkOk: bool)
    ensures var g := if gunshotOk && walkOk then Decoded(GunshotUrl) else Impulse;
      var w := if gunshotOk && walkOk then Decoded(WalkUrl) else Noise(0.1);
      before["gunshot" := g]["walk" := w]["reload" := Noise(0.5)]["thunder" := Thunder]
        == before + LoadedSounds(gunshotOk, walkOk)
  {
  }

  /** The gate shared by the two voice lines: a line is spoken when its timer
      is unset (JavaScript's falsy `undefined` or 0) or the cooldown has
      passed since it was last spoken. */
  function Accepts(timer: real, nowMs: real, cooldownMs: real): (ok: bool)
    ensures ok <==> timer == 0.0 || nowMs - timer >= cooldownMs
  {
    !(timer != 0.0 && nowMs - timer < cooldownMs)
  }

  /** The times, among `times`, at which a line gated by `cooldownMs` is
      actually spoken, starting from `timer`. */
  function Spoken(timer: real, times: seq<real>, cooldownMs: real): (r: seq<real>)
    ensures |r| <= |times|
    ensures forall t :: t in r ==> t in times
    decreases |times|
  {
    if times == [] then []
    else if Accepts(timer, times[0], cooldownMs) then [times[0]] + Spoken(times[0], times[1..], cooldownMs)
    else Spoken(timer, times[1..], cooldownMs)
  }

  /** Any two lines spoken one after the other are at least a cooldown apart,
      and the first one a cooldown after the previous one (if any); this
      needs the clock never to read exactly 0, the value the gate cannot tell
      from "never spoken". */
  lemma {:induction false} SpokenSpaced(timer: real, times: seq<real>, cooldownMs: real)
    requires forall i :: 0 <= i < |times| ==> times[i] != 0.0
    ensures var r := Spoken(timer, times, cooldownMs);
      && (forall i :: 0 <= i < |r| - 1 ==> r[i + 1] - r[i] >= cooldownMs)
      && (timer != 0.0 && |r| > 0 ==> r[0] - timer >= cooldownMs)
    decreases |times|
  {
    if times != [] {
      if Accepts(timer, times[0], cooldownMs) {
        SpokenSpaced(times[0], times[1..], cooldownMs);
      } else {
        SpokenSpaced(timer, times[1..], cooldownMs);
      }
    }
  }

  /** `source.playbackRate.value` for a `Math.random()` result `roll`. */
  function PlaybackRate(roll: real): (rate: real)
    requires 0.0 <= roll < 1.0
    ensures 0.9 <= rate < 1.1
  {
    0.9 + roll * 0.2
  }

  /** The delay after which the lightning listener plays the thunder. */
  function ThunderDelayMs(roll: real): (ms: real)
    requires 0.0 <= roll < 1.0
    ensures 200.0 <= ms < 700.0
  {
    200.0 + roll * 500.0
  }

  /** The delay after which a spoken caption is cleared. */
  function CaptionClearMs(text: string): (ms: int)
    ensures ms >= 1000 && (ms - 1000) % 100 == 0 && (ms - 1000) / 100 == |text|
  {
    |text| * 100 + 1000
  }

  /** The buffer source `play(name)` starts, at the rate drawn from `roll`:
      none for a name that is not registered, and the thunder alone through
      the low-pass filter. */
  function Sounded(sounds: map<string, Buffer>, name: string, roll: real): (r: seq<Playback>)
    requires 0.0 <= roll < 1.0
    ensures |r| <= 1 && (r != [] <==> name in sounds)
    ensures r != [] ==> && r[0].name == name && r[0].buffer == sounds[name]
                        && 0.9 <= r[0].rate < 1.1 && (r[0].lowpass <==> name == "thunder")
  {
    if name in sounds then [Playback(name, sounds[name], PlaybackRate(roll), name == "thunder")] else []
  }

  /** The utterance `speak` hands to speech synthesis, if there is one. */
  function Said(speechAvailable: bool, text: string, pitch: real, rate: real, preferMale: bool): (r: seq<Utterance>)
    ensures |r| <= 1 && (r != [] <==> speechAvailable)
    ensures r != [] ==> && r[0].text == text && r[0].pitch == pitch && r[0].rate == rate
                        && r[0].preferMale == preferMale && r[0].clearAfterMs == |text| * 100 + 1000
  {
    if speechAvailable then [Utterance(text, pitch, rate, preferMale, CaptionClearMs(text))] else []
  }

  class AudioController {
    /** `'speechSynthesis' in window`. */
    const speechAvailable: bool
    var sounds: map<string, Buffer>
    var ambienceStarted: bool
    /** How many times the ambience drone graph has been built and started. */
    var droneStarts: nat
    var introPlayed: bool
    var doorTimer: real
    var laughTimer: real
    var caption: string
    var spoken: seq<Utterance>
    var playbacks: seq<Playback>
    var thunderListening: bool

    ghost predicate Valid()
      reads this
    {
      droneStarts == if ambienceStarted then 1 else 0
    }

    /** The laugh's effect between two states: when `laughs`, the timer is
        set to `nowMs` and the line is captioned and handed to speech
        synthesis; otherwise all three are as they were. */
    twostate predicate LaughedIf(laughs: bool, nowMs: real)
      reads this
    {
      && laughTimer == (if laughs then nowMs else old(laughTimer))
      && caption == (if laughs then LaughText else old(caption))
      && spoken == old(spoken) + (if laughs then Said(speechAvailable, LaughText, 1.8, 0.9, false) else [])
    }

    /** What the player's frame never touches: the registry, the ambience,
        the intro, the door timer and the thunder listener. */
    twostate predicate SettingsKept()
      reads this
    {
      && sounds == old(sounds) && ambienceStarted == old(ambienceStarted) && droneStarts == old(droneStarts)
      && introPlayed == old(introPlayed) && doorTimer == old(doorTimer) && thunderListening == old(thunderListening)
    }

    constructor (speechAvailable: bool)
      ensures this.speechAvailable == speechAvailable
      ensures sounds == map[] && !ambienceStarted && droneStarts == 0 && !introPlayed
      ensures doorTimer == 0.0 && laughTimer == 0.0 && caption == ""
      ensures spoken == [] && playbacks == [] && !thunderListening
      ensures Valid()
    {
      this.speechAvailable := speechAvailable;
      sounds := map[];
      ambienceStarted := false;
      droneStarts := 0;
      introPlayed := false;
      doorTimer := 0.0;
      laughTimer := 0.0;
      caption := "";
      spoken := [];
      playbacks := [];
      thunderListening := false;
    }

    /** `load()`, with the outcome of fetching and decoding each sample. */
    method Load(gunshotOk: bool, walkOk: bool)
      requires Valid()
      modifies this
      ensures Valid()
      ensures sounds == old(sounds) + LoadedSounds(gunshotOk, walkOk) && thunderListening
      ensures ambienceStarted == old(ambienceStarted) && droneStarts == old(droneStarts)
      ensures introPlayed == old(introPlayed)
      ensures doorTimer == old(doorTimer) && laughTimer == old(laughTimer) && caption == old(caption)
      ensures spoken == old(spoken) && playbacks == old(playbacks)
    {
      ghost var before := sounds;
      if gunshotOk {
        sounds := sounds["gunshot" := Decoded(GunshotUrl)];
      }
      if gunshotOk && walkOk {
        sounds := sounds["walk" := Decoded(WalkUrl)];
        assert sounds == before["gunshot" := Decoded(GunshotUrl)]["walk" := Decoded(WalkUrl)];
      } else {
        // the `catch` block: a failure of either fetch replaces both
        ghost var tried := sounds;
        sounds := sounds["gunshot" := Impulse];
        assert sounds == before["gunshot" := Impulse] by {
          assert tried == before || tried == before["gunshot" := Decoded(GunshotUrl)];
        }
        sounds := sounds["walk" := Noise(0.1)];
      }
      ghost var fetched := sounds;
      sounds := sounds["reload" := Noise(0.5)];
      sounds := sounds["thunder" := Thunder];
      thunderListening := true;
      var g, w := if gunshotOk && walkOk then Decoded(GunshotUrl) else Impulse,
                  if gunshotOk && walkOk then Decoded(WalkUrl) else Noise(0.1);
      assert fetched == before["gunshot" := g]["walk" := w];
      LoadOverlays(before, gunshotOk, walkOk);
    }

    /** Builds and starts the drone the first time only. */
    method StartAmbience()
      requires Valid()
      modifies this
      ensures Valid() && ambienceStarted && droneStarts == 1
      ensures old(ambienceStarted) ==> droneStarts == old(droneStarts)
      ensures sounds == old(sounds) && introPlayed == old(introPlayed)
      ensures doorTimer == old(doorTimer) && laughTimer == old(laughTimer) && caption == old(caption)
      ensures spoken == old(spoken) && playbacks == old(playbacks) && thunderListening == old(thunderListening)
    {
      if ambienceStarted {
        return;
      }
      ambienceStarted := true;
      droneStarts := droneStarts + 1;
    }

    /** `speak`: the caption is shown at once; with speech synthesis the line
        is spoken and the caption cleared after `CaptionClearMs(text)`;
        without it the caption stays. */
    method Speak(text: string, pitch: real, rate: real, preferMale: bool)
      modifies this
      ensures caption == text
      ensures spoken == old(spoken) + Said(speechAvailable, text, pitch, rate, preferMale)
      ensures sounds == old(sounds) && ambienceStarted == old(ambienceStarted) && droneStarts == old(droneStarts)
      ensures introPlayed == old(introPlayed) && doorTimer == old(doorTimer) && laughTimer == old(laughTimer)
      ensures playbacks == old(playbacks) && thunderListening == old(thunderListening)
    {
      caption := text;
      if speechAvailable {
        spoken := spoken + [Utterance(text, pitch, rate, preferMale, CaptionClearMs(text))];
      }
    }

    /** Speaks the welcome line on the first call only. */
    method PlayIntro()
      requires Valid()
      modifies this
      ensures Valid() && introPlayed
      ensures old(introPlayed) ==> spoken == old(spoken) && caption == old(caption)
      ensures !old(introPlayed) ==>
        caption == IntroText && spoken == old(spoken) + Said(speechAvailable, IntroText, 1.0, 0.8, true)
      ensures sounds == old(sounds) && ambienceStarted == old(ambienceStarted) && droneStarts == old(droneStarts)
      ensures doorTimer == old(doorTimer) && laughTimer == old(laughTimer)
      ensures playbacks == old(playbacks) && thunderListening == old(thunderListening)
    {
      if introPlayed {
        return;
      }
      introPlayed := true;
      Speak(IntroText, 1.0, 0.8, true);
    }

    /** The locked-door line at `nowMs` (`performance.now()`), at most once
        per 5 s; a rejected call changes nothing. */
    method PlayDoorLocked(nowMs: real)
      requires Valid()
      modifies this
      ensures Valid()
      ensures !Accepts(old(doorTimer), nowMs, DoorCooldownMs) ==>
        doorTimer == old(doorTimer) && spoken == old(spoken) && caption == old(caption)
      ensures Accepts(old(doorTimer), nowMs, DoorCooldownMs) ==>
        doorTimer == nowMs && caption == DoorText && spoken == old(spoken) + Said(speechAvailable, DoorText, 0.5, 0.8, true)
      ensures sounds == old(sounds) && ambienceStarted == old(ambienceStarted) && droneStarts == old(droneStarts)
      ensures introPlayed == old(introPlayed) && laughTimer == old(laughTimer)
      ensures playbacks == old(playbacks) && thunderListening == old(thunderListening)
    {
      if doorTimer != 0.0 && nowMs - doorTimer < DoorCooldownMs {
        return;
      }
      doorTimer := nowMs;
      Speak(DoorText, 0.5, 0.8, true);
    }

    /** The laugh at `nowMs`, at most once per 10 s; a rejected call changes
        nothing. */
    method PlayLaugh(nowMs: real)
      requires Valid()
      modifies this
      ensures Valid()
      ensures !Accepts(old(laughTimer), nowMs, LaughCooldownMs) ==>
        laughTimer == old(laughTimer) && spoken == old(spoken) && caption == old(caption)
      ensures Accepts(old(laughTimer), nowMs, LaughCooldownMs) ==>
        laughTimer == nowMs && caption == LaughText && spoken == old(spoken) + Said(speechAvailable, LaughText, 1.8, 0.9, false)
      ensures sounds == old(sounds) && ambienceStarted == old(ambienceStarted) && droneStarts == old(droneStarts)
      ensures introPlayed == old(introPlayed) && doorTimer == old(doorTimer)
      ensures playbacks == old(playbacks) && thunderListening == old(thunderListening)
    {
      if laughTimer != 0.0 && nowMs - laughTimer < LaughCooldownMs {
        return;
      }
      laughTimer := nowMs;
      Speak(LaughText, 1.8, 0.9, false);
    }

    /** `play(name)`: a buffer source is started only for a registered name,
        at a playback rate drawn from `roll` (`Math.random()`); the thunder
        goes through the low-pass filter. */
    method Play(name: string, roll: real)
      requires Valid()
      requires 0.0 <= roll < 1.0
      modifies this
      ensures Valid()
      ensures playbacks == old(playbacks) + Sounded(old(sounds), name, roll)
      ensures sounds == old(sounds) && ambienceStarted == old(ambienceStarted) && droneStarts == old(droneStarts)
      ensures introPlayed == old(introPlayed) && doorTimer == old(doorTimer) && laughTimer == old(laughTimer)
      ensures caption == old(caption) && spoken == old(spoken) && thunderListening == old(thunderListening)
    {
      if name in sounds {
        var rate := PlaybackRate(roll);
        playbacks := playbacks + [Playback(name, sounds[name], rate, name == "thunder")];
      }
    }
  }
}
