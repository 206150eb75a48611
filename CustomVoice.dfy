/** The custom-voice agent (`CustomVoiceAgent`) and its `VoiceProfile`
    records: a current-profile field guarded by a fixed table of four
    profiles, a demo loop that walks the table, and the choice handling of
    `main`. Speaking is console output; here it yields the utterance that
    would be spoken, tagged with the profile it is spoken with. Speed and
    pitch are carried as opaque payload. */
module CustomVoice {
  import opened Text
  import opened Wrappers

  datatype VoiceProfile = VoiceProfile(
    name: string, voiceId: string, speed: real, pitch: real, personality: string)

  /** `VoiceProfile.__init__`: stores its arguments, except that a missing
      or empty (falsy) personality becomes "friendly". */
  function NewVoiceProfile(name: string, voiceId: string, speed: real := 1.0, pitch: real := 1.0,
                           personality: Option<string> := None): (p: VoiceProfile)
    ensures p.name == name && p.voiceId == voiceId && p.speed == speed && p.pitch == pitch
    ensures p.personality != ""
    ensures personality.Some? && personality.value != "" ==> p.personality == personality.value
    ensures personality == None || personality == Some("") ==> p.personality == "friendly"
  {
    var given := if personality.Some? then personality.value else "";
    VoiceProfile(name, voiceId, speed, pitch, if given != "" then given else "friendly")
  }

  const ReprPrefix := "VoiceProfile(name='"
  const ReprMiddle := "', personality='"
  const ReprSuffix := "')"

  /** `VoiceProfile.__repr__`. */
  function Repr(p: VoiceProfile): string {
    ReprPrefix + p.name + ReprMiddle + p.personality + ReprSuffix
  }

  /** The position of the first single quote, or the length. */
  function QuoteIndex(s: string): (i: nat)
    ensures i <= |s|
    ensures forall j :: 0 <= j < i ==> s[j] != '\''
    ensures i < |s| ==> s[i] == '\''
  {
    if s == [] || s[0] == '\'' then 0 else 1 + QuoteIndex(s[1..])
  }

  /** Reads a rendering back into its name and personality. */
  function ParseRepr(s: string): Option<(string, string)> {
    if !StartsWith(s, ReprPrefix) then None
    else
      var rest := s[|ReprPrefix|..];
      var i := QuoteIndex(rest);
      var tail := rest[i..];
      if |tail| >= |ReprMiddle| + |ReprSuffix| && StartsWith(tail, ReprMiddle) && EndsWith(tail, ReprSuffix)
      then Some((rest[..i], tail[|ReprMiddle|..|tail| - |ReprSuffix|]))
      else None
  }

  /** The rendering shows exactly the name and the personality: for a name
      without a single quote, both can be read back from it. */
  lemma ReprRoundTrip(p: VoiceProfile)
    requires forall j :: 0 <= j < |p.name| ==> p.name[j] != '\''
    ensures ParseRepr(Repr(p)) == Some((p.name, p.personality))
  {
    var s := Repr(p);
    assert StartsWith(s, ReprPrefix);
    var rest := s[|ReprPrefix|..];
    assert rest == p.name + (ReprMiddle + p.personality + ReprSuffix);
    var i := QuoteIndex(rest);
    assert rest[|p.name|] == '\'';
    assert i == |p.name|;
    var tail := rest[i..];
    assert tail == ReprMiddle + p.personality + ReprSuffix;
    assert rest[..i] == p.name;
    assert tail[|ReprMiddle|..|tail| - |ReprSuffix|] == p.personality;
  }

  /** The entries of `VOICE_PROFILES`. */
  const Professional := NewVoiceProfile("Professional", "prof_001", 1.0, 1.0, Some("professional and courteous"))
  const Friendly := NewVoiceProfile("Friendly", "friend_001", 1.1, 1.05, Some("warm and friendly"))
  const Energetic := NewVoiceProfile("Energetic", "energy_001", 1.2, 1.1, Some("enthusiastic and energetic"))
  const Calm := NewVoiceProfile("Calm", "calm_001", 0.9, 0.95, Some("calm and soothing"))

  /** `VOICE_PROFILES`: profile key to its profile. */
  const VoiceProfiles: map<string, VoiceProfile> := map[
    "professional" := Professional,
    "friendly" := Friendly,
    "energetic" := Energetic,
    "calm" := Calm
  ]

  /** The keys of `VOICE_PROFILES` in iteration (insertion) order. */
  const ProfileNames: seq<string> := ["professional", "friendly", "energetic", "calm"]

  /** Iterating the table visits each of its four keys exactly once, in
      `ProfileNames` order. */
  lemma ProfileNamesEnumerateTable()
    ensures forall n :: n in VoiceProfiles <==> n in ProfileNames
    ensures forall i, j :: 0 <= i < j < |ProfileNames| ==> ProfileNames[i] != ProfileNames[j]
  {
  }

  /** The four profiles are distinct, so the current profile always tells
      which table key was chosen last. */
  lemma ProfilesDistinct(a: string, b: string)
    requires a in VoiceProfiles && b in VoiceProfiles
    requires VoiceProfiles[a] == VoiceProfiles[b]
    ensures a == b
  {
  }

  const DemoText := "Hello! This is how I sound with this voice profile."

  /** What `speak` outputs: the text, with the profile it is spoken with. */
  datatype Utterance = Utterance(voice: VoiceProfile, text: string)

  /** The utterances of `demonstrate_voices`: the demo text once with every
      profile, in table order. */
  function DemoUtterances(): seq<Utterance> {
    seq(|ProfileNames|, i requires 0 <= i < |ProfileNames| => Utterance(VoiceProfiles[ProfileNames[i]], DemoText))
  }

  /** The answers of `main`'s interactive loop. */
  datatype Choice = Quit | Select(profileName: string)

  /** `main` strips and lower-cases the answer before testing it; "exit" and
      "quit" end the loop, anything else names a profile to try. */
  function ParseChoice(rawChoice: string): (c: Choice)
    ensures c.Quit? <==> Lower(Strip(rawChoice)) in ["exit", "quit"]
    ensures c.Select? ==> c.profileName == Lower(Strip(rawChoice))
  {
    var choice := Lower(Strip(rawChoice));
    if choice in ["exit", "quit"] then Quit else Select(choice)
  }

  class CustomVoiceAgent {
    var voiceProfile: VoiceProfile

    /** The current profile is always one of the four table profiles. */
    ghost predicate Valid()
      reads this
    {
      voiceProfile in VoiceProfiles.Values
    }

    /** `__init__` once its guard has passed. */
    constructor (profileName: string := "friendly")
      requires profileName in VoiceProfiles
      ensures Valid() && voiceProfile == VoiceProfiles[profileName]
    {
      voiceProfile := VoiceProfiles[profileName];
    }

    /** `__init__` with its guard: an unknown profile raises ValueError. */
    static method Create(profileName: string := "friendly") returns (r: Result<CustomVoiceAgent>)
      ensures r.Err? <==> profileName !in VoiceProfiles
      ensures r.Err? ==> r.error == "Unknown voice profile: " + profileName
      ensures r.Ok? ==> fresh(r.value) && r.value.Valid() && r.value.voiceProfile == VoiceProfiles[profileName]
    {
      if profileName !in VoiceProfiles {
        return Err("Unknown voice profile: " + profileName);
      }
      var agent := new CustomVoiceAgent(profileName);
      return Ok(agent);
    }

    /** `change_voice`: succeeds exactly for a table key, and then the
        current profile is that key's profile; otherwise nothing changes. */
    method ChangeVoice(profileName: string) returns (changed: bool)
      requires Valid()
      modifies this`voiceProfile
      ensures Valid()
      ensures changed <==> profileName in VoiceProfiles
      ensures voiceProfile == if changed then VoiceProfiles[profileName] else old(voiceProfile)
    {
      if profileName !in VoiceProfiles {
        return false;
      }
      voiceProfile := VoiceProfiles[profileName];
      return true;
    }

    /** `speak`: the text, with the current profile. */
    function Speak(text: string): (u: Utterance)
      reads this
      requires Valid()
      ensures u.voice in VoiceProfiles.Values && u.voice == voiceProfile && u.text == text
    {
      Utterance(voiceProfile, text)
    }

    /** `demonstrate_voices`: speaks the demo text with every profile in
        table order and leaves the last one ("calm") current, whatever was
        current before. */
    method DemonstrateVoices() returns (spoken: seq<Utterance>)
      requires Valid()
      modifies this`voiceProfile
      ensures Valid()
      ensures voiceProfile == VoiceProfiles["calm"]
      ensures spoken == DemoUtterances()
    {
      spoken := [];
      for i := 0 to |ProfileNames|
        invariant Valid()
        invariant i > 0 ==> voiceProfile == VoiceProfiles[ProfileNames[i - 1]]
        invariant spoken == DemoUtterances()[..i]
      {
        var changed := ChangeVoice(ProfileNames[i]);
        assert changed;
        spoken := spoken + [Speak(DemoText)];
      }
    }

    /** One pass of `main`'s interactive loop: `rawChoice` is the answer to
        the profile prompt and `text` the answer to the text prompt that
        follows a successful change. */
    method HandleChoice(rawChoice: string, text: string) returns (done: bool, spoken: Option<Utterance>)
      requires Valid()
      modifies this`voiceProfile
      ensures Valid()
      ensures var c := ParseChoice(rawChoice);
              && done == c.Quit?
              && (c.Quit? ==> spoken == None && voiceProfile == old(voiceProfile))
              && (c.Select? && c.profileName in VoiceProfiles ==>
                    voiceProfile == VoiceProfiles[c.profileName] && spoken == Some(Utterance(voiceProfile, text)))
              && (c.Select? && c.profileName !in VoiceProfiles ==>
                    voiceProfile == old(voiceProfile) && spoken == None)
    {
      match ParseChoice(rawChoice) {
        case Quit =>
          return true, None;
        case Select(choice) =>
          var changed := ChangeVoice(choice);
          if changed {
            return false, Some(Speak(text));
          }
          return false, None;
      }
    }
  }

  /** `main` up to its interactive loop: the agent is built with
      "friendly", which is a table key, so it never raises; after the demo
      the "calm" profile is current. */
  method MainSetup() returns (agent: CustomVoiceAgent, spoken: seq<Utterance>)
    ensures agent.Valid() && agent.voiceProfile == VoiceProfiles["calm"]
    ensures spoken == DemoUtterances()
  {
    var r := CustomVoiceAgent.Create("friendly");
    agent := r.value;
    spoken := agent.DemonstrateVoices();
  }
}
