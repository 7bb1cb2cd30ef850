/** The page shell of src/App.tsx: a four-step flow (choose a source, then
    either ask for the microphone or upload a file, then the visualizer),
    the "now playing" header text, and the two audio streams. Browser
    answers (the chosen files, the microphone permission) are parameters. */
module AppShell {

  import opened Wrappers
  import opened Strings

  /** The content currently rendered. */
  datatype AppStep = AudioSource | DirectInput | SoundFile | Visualizer

  /** A `MediaStream`, known only by its identity. */
  datatype MediaStream = MediaStream(id: nat)

  /** A file picked in the upload input: its name and the object URL the
      browser makes for it. */
  datatype PickedFile = PickedFile(name: string, url: string)

  /** The browser's answer to the microphone request. */
  datatype Grant = Granted(stream: MediaStream) | Refused

  /** What the visualizer is fed: the live stream, or the uploaded file's
      URL (`null` when none was uploaded). */
  datatype Source = Live(stream: MediaStream) | Recorded(url: Option<string>)

  /** One section of the page body. */
  datatype Section = SourceChoice | MicrophonePrompt | UploadPrompt | Player(source: Source)

  const NowPlayingNone := "No source selected"
  const NowPlayingDirect := "Streaming direct input"

  /** The labels on the two source cards. */
  const DirectLabel := "Direct Input"
  const SoundLabel := "Sound File"

  /** The step a click on the source card captioned `caption` moves to. */
  function SourceStep(caption: string): (step: AppStep)
    ensures step == DirectInput <==> Contains(Lower(caption), "direct")
    ensures step != DirectInput ==> step == SoundFile
  {
    if Contains(Lower(caption), "direct") then DirectInput else SoundFile
  }

  /** Whether that click also toggles the microphone. */
  predicate TogglesInput(caption: string)
  {
    Lower(caption) == "direct-input"
  }

  /** `handleSwitch`: between the microphone and the upload step. */
  function Switched(step: AppStep): (next: AppStep)
    ensures next == DirectInput || next == SoundFile
    ensures next != step
  {
    if step == DirectInput then SoundFile else DirectInput
  }

  /** Switching twice comes back to either of the two prompts. */
  lemma SwitchBack(step: AppStep)
    requires step == DirectInput || step == SoundFile
    ensures Switched(Switched(step)) == step
  {
  }

  /** The direct-input card moves to the microphone step and the sound-file
      card to the upload step; neither caption lowercases to `direct-input`
      (the direct one gives `direct input`, with a space), so no click on a
      card toggles the microphone. */
  lemma SourceCards()
    ensures SourceStep(DirectLabel) == DirectInput && !TogglesInput(DirectLabel)
    ensures SourceStep(SoundLabel) == SoundFile && !TogglesInput(SoundLabel)
  {
    DirectCard();
    SoundCard();
  }

  lemma DirectCard()
    ensures Contains(Lower(DirectLabel), "direct") && !TogglesInput(DirectLabel)
  {
    var s := DirectLabel;
    assert |s| == 12 && s[0] == 'D' && s[1] == 'i' && s[2] == 'r' && s[3] == 'e' && s[4] == 'c' && s[5] == 't' && s[6] == ' ';
    DirectLetters(s);
    StartsDirect(Lower(s));
  }

  /** Lowercasing a caption that starts `Direct ` gives one that starts
      `direct `. */
  lemma DirectLetters(s: string)
    requires |s| == 12 && s[0] == 'D' && s[1] == 'i' && s[2] == 'r' && s[3] == 'e' && s[4] == 'c' && s[5] == 't' && s[6] == ' '
    ensures var t := Lower(s);
      && |t| == 12 && t[0] == 'd' && t[1] == 'i' && t[2] == 'r'
      && t[3] == 'e' && t[4] == 'c' && t[5] == 't' && t[6] == ' '
  {
    assert LowerChar('D') == 'd';
  }

  /** Twelve characters starting `direct ` contain `direct` and are not
      `direct-input`. */
  lemma StartsDirect(t: string)
    requires |t| == 12 && t[0] == 'd' && t[1] == 'i' && t[2] == 'r' && t[3] == 'e' && t[4] == 'c' && t[5] == 't' && t[6] == ' '
    ensures Contains(t, "direct") && t != "direct-input"
  {
    assert t[..6] == "direct";
    assert OccursAt(t, "direct", 0);
    assert t[6] != "direct-input"[6];
  }

  /** `sound file` does not contain `direct`: its only `d` ends `sound`. */
  lemma SoundCard()
    ensures !Contains(Lower(SoundLabel), "direct") && !TogglesInput(SoundLabel)
  {
    var s := SoundLabel;
    assert s[0] == 'S' && s[1] == 'o' && s[2] == 'u' && s[3] == 'n' && s[5] == ' ';
    SoundLetters(s);
    NoDirectWithin(Lower(s));
  }

  /** Ten characters without a `d` among the first four and a space at 5
      leave no room for `direct`. */
  lemma NoDirectWithin(t: string)
    requires |t| == 10 && t[5] == ' '
    requires t[0] != 'd' && t[1] != 'd' && t[2] != 'd' && t[3] != 'd'
    ensures !Contains(t, "direct") && t != "direct-input"
  {
    forall i | 0 <= i <= |t|
      ensures !OccursAt(t, "direct", i)
    {
      if i + 6 <= |t| {
        var w := t[i..i + 6];
        assert w[0] == t[i] && w[1] == t[i + 1];
        assert i == 0 || i == 1 || i == 2 || i == 3 || i == 4;
      }
    }
  }

  /** Lowercasing a ten-character caption starting `Soun` with a space at 5
      keeps a `d` out of the first four places and the space in place. */
  lemma SoundLetters(s: string)
    requires |s| == 10 && s[0] == 'S' && s[1] == 'o' && s[2] == 'u' && s[3] == 'n' && s[5] == ' '
    ensures var t := Lower(s);
      && |t| == 10 && t[0] != 'd' && t[1] != 'd' && t[2] != 'd' && t[3] != 'd' && t[5] == ' '
  {
  }

  /** The section shown for each step. */
  function SectionOf(step: AppStep, source: Source): Section
  {
    match step
    case AudioSource => SourceChoice
    case DirectInput => MicrophonePrompt
    case SoundFile => UploadPrompt
    case Visualizer => Player(source)
  }

  /** The component state. */
  class App {
    var directInputStream: Option<MediaStream>
    var soundFileStream: Option<string>
    var nowPlaying: string
    var step: AppStep

    /** The state at page load: the source choice, nothing selected. */
    predicate Unstarted()
      reads this
    {
      && directInputStream == None && soundFileStream == None
      && nowPlaying == NowPlayingNone && step == AudioSource
    }

    /** A reachability invariant: the source choice is only ever shown
        before anything happens, because no handler leads back to it. Every
        handler keeps it; no other contract depends on it. */
    predicate Valid()
      reads this
    {
      step == AudioSource ==> Unstarted()
    }

    constructor ()
      ensures Unstarted() && Valid()
      ensures !IsNowPlaying()
    {
      directInputStream, soundFileStream := None, None;
      nowPlaying, step := NowPlayingNone, AudioSource;
    }

    predicate IsDirectInput()
      reads this
    {
      directInputStream != None
    }

    predicate IsNowPlaying()
      reads this
    {
      nowPlaying != NowPlayingNone
    }

    predicate IsStep(it: AppStep)
      reads this
    {
      step == it
    }

    /** What the visualizer is given: the live stream whenever there is
        one, otherwise the uploaded file's URL. */
    function VisualizerSource(): (source: Source)
      reads this
      ensures source.Live? <==> IsDirectInput()
      ensures source.Live? ==> Some(source.stream) == directInputStream
      ensures source.Recorded? ==> source.url == soundFileStream
    {
      if IsDirectInput() then Live(directInputStream.value) else Recorded(soundFileStream)
    }

    /** `renderBody`: the four conditional sections in order. */
    function Body(): (sections: seq<Section>)
      reads this
      ensures |sections| == 1
      ensures sections[0] == SectionOf(step, VisualizerSource())
    {
      (if IsStep(AudioSource) then [SourceChoice] else [])
      + (if IsStep(DirectInput) then [MicrophonePrompt] else [])
      + (if IsStep(SoundFile) then [UploadPrompt] else [])
      + (if IsStep(Visualizer) then [Player(VisualizerSource())] else [])
    }

    /** A click on the source card captioned `caption`; `grant` is what the
        browser would answer if the click asked for the microphone. */
    method HandleAudioSource(caption: string, grant: Grant)
      requires Valid()
      modifies this
      ensures Valid()
      ensures !TogglesInput(caption) ==>
        && step == SourceStep(caption)
        && directInputStream == old(directInputStream)
        && soundFileStream == old(soundFileStream)
        && nowPlaying == old(nowPlaying)
      ensures TogglesInput(caption) && old(directInputStream) != None ==>
        && step == DirectInput && directInputStream == None
        && soundFileStream == old(soundFileStream) && nowPlaying == old(nowPlaying)
      ensures TogglesInput(caption) && old(directInputStream) == None ==>
        && soundFileStream == old(soundFileStream)
        && (grant.Refused? ==> step == DirectInput && directInputStream == None && nowPlaying == old(nowPlaying))
        && (grant.Granted? ==> step == Visualizer && directInputStream == Some(grant.stream) && nowPlaying == NowPlayingDirect)
    {
      var target := Lower(caption);
      step := if Contains(target, "direct") then DirectInput else SoundFile;
      if target == "direct-input" {
        assert OccursAt(target, "direct", 0);
        ToggleDirectInput(grant);
      }
    }

    /** A change of the upload input; it throws when no file was picked. */
    method HandleSoundFile(files: seq<PickedFile>) returns (outcome: Outcome)
      requires Valid()
      modifies this
      ensures Valid()
      ensures files == [] ==>
        && outcome == Fail(TypeError) && step == old(step)
        && soundFileStream == old(soundFileStream) && nowPlaying == old(nowPlaying)
      ensures files != [] ==>
        && outcome == Pass && step == Visualizer
        && soundFileStream == Some(files[0].url) && nowPlaying == files[0].name
      ensures directInputStream == old(directInputStream)
      ensures files != [] ==> (IsNowPlaying() <==> files[0].name != NowPlayingNone)
    {
      if files == [] {
        return Fail(TypeError);
      }
      soundFileStream, nowPlaying, step := Some(files[0].url), files[0].name, Visualizer;
      return Pass;
    }

    /** The "switch" link of the two prompts. */
    method HandleSwitch()
      requires Valid()
      modifies this
      ensures Valid()
      ensures step == Switched(old(step))
      ensures directInputStream == old(directInputStream)
      ensures soundFileStream == old(soundFileStream) && nowPlaying == old(nowPlaying)
    {
      step := if IsStep(DirectInput) then SoundFile else DirectInput;
    }

    /** The settled microphone request: a granted stream starts playing, a
        refusal is only logged. */
    method GetDirectInput(grant: Grant)
      requires Valid()
      modifies this
      ensures Valid()
      ensures grant.Granted? ==>
        && directInputStream == Some(grant.stream)
        && nowPlaying == NowPlayingDirect && step == Visualizer
        && IsNowPlaying() && VisualizerSource() == Live(grant.stream)
      ensures grant.Refused? ==>
        && directInputStream == old(directInputStream)
        && nowPlaying == old(nowPlaying) && step == old(step)
      ensures soundFileStream == old(soundFileStream)
    {
      if grant.Granted? {
        directInputStream, nowPlaying, step := Some(grant.stream), NowPlayingDirect, Visualizer;
      }
    }

    /** Drops the live stream; the step and the header stay. It throws when
        there is no stream. */
    method StopDirectInput() returns (outcome: Outcome)
      requires Valid()
      modifies this
      ensures Valid()
      ensures old(directInputStream) == None ==> outcome == Fail(TypeError)
      ensures old(directInputStream) != None ==> outcome == Pass
      ensures directInputStream == None && !IsDirectInput()
      ensures step == old(step) && nowPlaying == old(nowPlaying)
      ensures soundFileStream == old(soundFileStream)
    {
      if directInputStream == None {
        return Fail(TypeError);
      }
      directInputStream := None;
      return Pass;
    }

    /** Stops the live stream when there is one, and asks for one
        otherwise. */
    method ToggleDirectInput(grant: Grant)
      requires Valid()
      modifies this
      ensures Valid()
      ensures old(directInputStream) != None ==>
        && directInputStream == None
        && step == old(step) && nowPlaying == old(nowPlaying)
      ensures old(directInputStream) == None && grant.Granted? ==>
        && directInputStream == Some(grant.stream)
        && nowPlaying == NowPlayingDirect && step == Visualizer
      ensures old(directInputStream) == None && grant.Refused? ==>
        && directInputStream == None
        && step == old(step) && nowPlaying == old(nowPlaying)
      ensures soundFileStream == old(soundFileStream)
    {
      if IsDirectInput() {
        var _ := StopDirectInput();
      } else {
        GetDirectInput(grant);
      }
    }
  }
}
