/** The controls of src/Visualizer.tsx: the component state that the
    renderer reads (colour, draw mode, rainbow flag) and the change handler
    that turns the style selector's option label into a draw mode. */
module StyleSelector {

  import opened Strings

  /** The labels of the style selector's options, in order. */
  const Options: seq<string> := ["Bars", "Wave", "Filled Wave", "Oscilloscope"]

  /** The draw modes those labels give. */
  const Modes: seq<string> := ["bars", "wave", "filled-wave", "oscilloscope"]

  /** `text.replace(' ', '-').toLowerCase()`: a string pattern, so only the
      first space becomes a dash; every other character is lowercased,
      later spaces included, and nothing is added or removed. */
  function DrawMode(text: string): (mode: string)
    ensures |mode| == |text|
    ensures forall i :: 0 <= i < |text| ==>
      mode[i] == if i == IndexOf(text, ' ') then '-' else LowerChar(text[i])
  {
    Lower(ReplaceFirst(text, ' ', '-'))
  }

  /** The four options give the four draw modes. */
  lemma OptionModes()
    ensures forall i :: 0 <= i < |Options| ==> DrawMode(Options[i]) == Modes[i]
  {
    forall i | 0 <= i < |Options|
      ensures DrawMode(Options[i]) == Modes[i]
    {
      if i == 0 {
        BarsMode();
      } else if i == 1 {
        WaveMode();
      } else if i == 2 {
        FilledWaveMode();
      } else {
        OscilloscopeMode();
      }
    }
  }

  lemma BarsMode()
    ensures DrawMode("Bars") == "bars"
  {
    SpacelessMode("Bars", "bars");
  }

  lemma WaveMode()
    ensures DrawMode("Wave") == "wave"
  {
    SpacelessMode("Wave", "wave");
  }

  lemma FilledWaveMode()
    ensures DrawMode("Filled Wave") == "filled-wave"
  {
    SpacedMode("Filled Wave", 6, "filled-wave");
  }

  lemma OscilloscopeMode()
    ensures DrawMode("Oscilloscope") == "oscilloscope"
  {
    SpacelessMode("Oscilloscope", "oscilloscope");
  }

  /** A label without a space is only lowercased. */
  lemma SpacelessMode(text: string, mode: string)
    requires forall i :: 0 <= i < |text| ==> text[i] != ' '
    requires |mode| == |text| && forall i :: 0 <= i < |text| ==> mode[i] == LowerChar(text[i])
    ensures DrawMode(text) == mode
  {
  }

  /** A label whose first space is at `k`. */
  lemma SpacedMode(text: string, k: nat, mode: string)
    requires k < |text| && text[k] == ' ' && forall i :: 0 <= i < k ==> text[i] != ' '
    requires |mode| == |text| && mode[k] == '-'
    requires forall i :: 0 <= i < |text| && i != k ==> mode[i] == LowerChar(text[i])
    ensures DrawMode(text) == mode
  {
    assert IndexOf(text, ' ') == k;
  }

  /** A label with two spaces keeps its second one. */
  lemma OnlyFirstSpace()
    ensures DrawMode("Filled Wave Form") == "filled-wave form"
  {
    SpacedMode("Filled Wave Form", 6, "filled-wave form");
  }

  /** The component state. */
  class Visualizer {
    var color: string
    var draw: string
    var rainbow: bool

    constructor ()
      ensures color == "8000ff" && draw == "bars" && !rainbow
    {
      color, draw, rainbow := "8000ff", "bars", false;
    }

    /** A change event from the input named `name`; `text` is the selected
        option's label when that input is the style selector. Only the
        selector updates the state, and only its `draw`; the colour and
        rainbow inputs have no case. */
    method HandleChange(name: string, text: string)
      modifies this
      ensures draw == if name == "draw" then DrawMode(text) else old(draw)
      ensures color == old(color) && rainbow == old(rainbow)
      ensures old(draw) in Modes && text in Options ==> draw in Modes
    {
      if name == "draw" {
        draw := DrawMode(text);
        OptionModes();
      }
    }
  }
}
