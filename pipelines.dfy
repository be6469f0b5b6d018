/**
 * GStreamer launch lines with placeholders. A stored pipeline names its
 * input file, its output file and its progress element by the placeholders
 * `{{input_file}}`, `{{output_file}}` and `{{progress}}`; the worker fills
 * them in by string replacement. A pipeline built from a template is a
 * sequence of literal pieces and slots, rendered with a filling per slot.
 */
module Pipelines {
  import opened Text

  datatype Hole = InputFile | OutputFile | Progress

  function Word(h: Hole): string
  {
    match h
    case InputFile => "input_file"
    case OutputFile => "output_file"
    case Progress => "progress"
  }

  /** `{{input_file}}`, `{{output_file}}`, `{{progress}}`. */
  function Placeholder(h: Hole): (p: string)
    ensures |p| > 4 && p[0] == '{' && p[1] == '{'
  {
    "{{" + Word(h) + "}}"
  }

  /**
   * No placeholder occurs inside another, so replacing one of them never
   * touches the others.
   */
  lemma PlaceholderNotInOther(k: Hole, h: Hole)
    requires k != h
    ensures !Contains(Placeholder(k), Placeholder(h))
  {
    PlaceholdersApart(k, "", h);
    assert Placeholder(k) + "" == Placeholder(k);
  }

  datatype Piece = Lit(text: string) | Slot(hole: Hole)

  /** What each slot is rendered as. */
  datatype Fill = Fill(input: string, output: string, progress: string)
  {
    function At(h: Hole): string
    {
      match h
      case InputFile => input
      case OutputFile => output
      case Progress => progress
    }

    function With(h: Hole, v: string): (f: Fill)
      ensures f.At(h) == v && forall k :: k != h ==> f.At(k) == At(k)
    {
      match h
      case InputFile => this.(input := v)
      case OutputFile => this.(output := v)
      case Progress => this.(progress := v)
    }
  }

  /** The filling that leaves every placeholder in place: how a pipeline is stored. */
  function Placeholders(): Fill
  {
    Fill(Placeholder(InputFile), Placeholder(OutputFile), Placeholder(Progress))
  }

  function PieceText(piece: Piece, f: Fill): string
  {
    match piece
    case Lit(t) => t
    case Slot(h) => f.At(h)
  }

  function Render(ps: seq<Piece>, f: Fill): string
    decreases |ps|
  {
    if ps == [] then "" else PieceText(ps[0], f) + Render(ps[1..], f)
  }

  /** No literal piece holds a `{`, so no placeholder can start inside one. */
  predicate BracelessLiterals(ps: seq<Piece>)
  {
    forall i :: 0 <= i < |ps| && ps[i].Lit? ==> '{' !in ps[i].text
  }

  /** A queue element with every size limit switched off. */
  function Queue(): string
  {
    "queue" + " max-size-buffers=0" + " max-size-bytes=0" + " max-size-time=0"
  }

  /**
   * The launch line every built-in pipeline follows: demux the input,
   * re-encode the audio as AAC, scale and re-encode the video, report
   * progress and mux the result.
   */
  function TemplatePieces(demux: string, mux: string, width: string, height: string,
                          encoder: string, bitrate: string, parser: string): seq<Piece>
  {
    [Lit("filesrc location="), Slot(InputFile),
     Lit(" ! " + demux + " name=d " + mux + " name=mux ! filesink location="), Slot(OutputFile),
     Lit(" d.audio_0 ! " + Queue() + " ! decodebin" + " ! audioconvert" + " ! avenc_aac" + " ! mux.audio_0"
         + " d.video_0 ! " + Queue() + " ! decodebin" + " ! videoscale" + " ! video/x-raw,width="
         + width + ", height=" + height + " ! " + encoder + " bitrate=" + bitrate + " ! "),
     Slot(Progress),
     Lit(" ! " + parser + " ! mux.video_0")]
  }

  /** A built-in pipeline as stored: the template with its placeholders. */
  function PipelineTemplate(demux: string, mux: string, width: string, height: string,
                            encoder: string, bitrate: string, parser: string): string
  {
    Render(TemplatePieces(demux, mux, width, height, encoder, bitrate, parser), Placeholders())
  }

  lemma QueueBraceless()
    ensures '{' !in Queue()
  {
    assert '{' !in " max-size-buffers=0";
    assert '{' !in " max-size-bytes=0";
  }

  lemma ChainBraceless()
    ensures '{' !in " d.audio_0 ! " + Queue() + " ! decodebin" + " ! audioconvert" + " ! avenc_aac" + " ! mux.audio_0"
                    + " d.video_0 ! " + Queue() + " ! decodebin" + " ! videoscale" + " ! video/x-raw,width="
  {
    QueueBraceless();
    assert '{' !in " ! audioconvert";
    assert '{' !in " ! video/x-raw,width=";
  }

  lemma DemuxBraceless()
    ensures '{' !in " name=mux ! filesink location="
  {
  }

  /** The template's literals are free of `{` when its parameters are. */
  lemma TemplateBraceless(demux: string, mux: string, width: string, height: string,
                          encoder: string, bitrate: string, parser: string)
    requires '{' !in demux && '{' !in mux && '{' !in width && '{' !in height
    requires '{' !in encoder && '{' !in bitrate && '{' !in parser
    ensures BracelessLiterals(TemplatePieces(demux, mux, width, height, encoder, bitrate, parser))
  {
    ChainBraceless();
    DemuxBraceless();
  }

  lemma {:induction false} RenderAppend(a: seq<Piece>, b: seq<Piece>, f: Fill)
    ensures Render(a + b, f) == Render(a, f) + Render(b, f)
    decreases |a|
  {
    if a == [] {
      assert a + b == b;
    } else {
      assert (a + b)[0] == a[0] && (a + b)[1..] == a[1..] + b;
      RenderAppend(a[1..], b, f);
    }
  }

  /** Every slot of a template shows up in the rendered line with its filling. */
  lemma RenderContainsSlot(ps: seq<Piece>, f: Fill, i: int)
    requires 0 <= i < |ps| && ps[i].Slot?
    ensures Contains(Render(ps, f), f.At(ps[i].hole))
  {
    assert ps == ps[..i] + [ps[i]] + ps[i + 1..];
    RenderAppend(ps[..i] + [ps[i]], ps[i + 1..], f);
    RenderAppend(ps[..i], [ps[i]], f);
    assert Render([ps[i]], f) == f.At(ps[i].hole);
    ContainsInfix(Render(ps[..i], f), f.At(ps[i].hole), Render(ps[i + 1..], f));
  }

  /** Every built-in pipeline carries all three placeholders. */
  lemma TemplateHasPlaceholders(demux: string, mux: string, width: string, height: string,
                                encoder: string, bitrate: string, parser: string, h: Hole)
    ensures Contains(PipelineTemplate(demux, mux, width, height, encoder, bitrate, parser), Placeholder(h))
  {
    var ps := TemplatePieces(demux, mux, width, height, encoder, bitrate, parser);
    var i := match h case InputFile => 1 case OutputFile => 3 case Progress => 5;
    RenderContainsSlot(ps, Placeholders(), i);
  }

  // ---------------------------------------------------------------- replacement over a rendered line

  /** Replacement passes over a prefix in which no occurrence of the pattern starts. */
  lemma {:induction false} ReplaceAllSkips(a: string, s: string, p: string, r: string)
    requires |p| > 0
    requires forall i: nat :: i < |a| ==> !OccursAt(a + s, p, i)
    ensures ReplaceAll(a + s, p, r) == a + ReplaceAll(s, p, r)
    decreases |a|
  {
    if a == [] {
      assert a + s == s;
    } else {
      var t := a + s;
      assert !OccursAt(t, p, 0);
      if |t| >= |p| {
        OccursAfterHead(t, p);
        assert t[1..] == a[1..] + s;
        forall i: nat | i < |a[1..]| ensures !OccursAt(a[1..] + s, p, i) {
          assert !OccursAt(t, p, i + 1);
        }
        ReplaceAllSkips(a[1..], s, p, r);
        assert t[0] == a[0];
        assert a == [a[0]] + a[1..];
      }
    }
  }

  lemma ReplaceAllHits(s: string, p: string, r: string)
    requires |p| > 0
    ensures ReplaceAll(p + s, p, r) == r + ReplaceAll(s, p, r)
  {
    assert (p + s)[..|p|] == p && (p + s)[|p|..] == s;
  }

  /** No placeholder starts inside text without a `{`. */
  lemma BracelessHasNoPlaceholder(a: string, s: string, h: Hole)
    requires '{' !in a
    ensures forall i: nat :: i < |a| ==> !OccursAt(a + s, Placeholder(h), i)
  {
    var p := Placeholder(h);
    forall i: nat | i < |a| ensures !OccursAt(a + s, p, i) {
      if i + |p| <= |a + s| {
        assert (a + s)[i..i + |p|][0] == a[i];
      }
    }
  }

  /** One placeholder never starts inside another. */
  lemma PlaceholdersApart(k: Hole, s: string, h: Hole)
    requires k != h
    ensures forall i: nat :: i < |Placeholder(k)| ==> !OccursAt(Placeholder(k) + s, Placeholder(h), i)
  {
    var q, p := Placeholder(k), Placeholder(h);
    assert Word(k)[0] != Word(h)[0];
    assert forall j :: 2 <= j < |q| ==> q[j] != '{';
    forall i: nat | i < |q| ensures !OccursAt(q + s, p, i) {
      if i + |p| <= |q + s| {
        var w := (q + s)[i..i + |p|];
        if i == 0 {
          assert w[2] == q[2] == Word(k)[0] != p[2];
        } else if i == 1 {
          assert w[1] == q[2] != p[1];
        } else {
          assert w[0] == q[i] != p[0];
        }
      }
    }
  }

  /**
   * Replacing one placeholder in a rendered line fills exactly that slot,
   * as long as the other slots hold either their own placeholder or text
   * without a `{`.
   */
  lemma {:induction false} ReplaceFillsSlot(ps: seq<Piece>, f: Fill, h: Hole, r: string)
    requires BracelessLiterals(ps)
    requires f.At(h) == Placeholder(h)
    requires forall k :: k != h ==> f.At(k) == Placeholder(k) || '{' !in f.At(k)
    ensures ReplaceAll(Render(ps, f), Placeholder(h), r) == Render(ps, f.With(h, r))
    decreases |ps|
  {
    if ps != [] {
      var rest := Render(ps[1..], f);
      assert BracelessLiterals(ps[1..]) by {
        forall i | 0 <= i < |ps[1..]| && ps[1..][i].Lit? ensures '{' !in ps[1..][i].text {
          assert ps[1..][i] == ps[i + 1];
        }
      }
      ReplaceFillsSlot(ps[1..], f, h, r);
      var x := PieceText(ps[0], f);
      match ps[0]
      case Lit(t) =>
        assert ps[0].Lit?;
        BracelessHasNoPlaceholder(t, rest, h);
        ReplaceAllSkips(t, rest, Placeholder(h), r);
      case Slot(k) =>
        if k == h {
          ReplaceAllHits(rest, Placeholder(h), r);
        } else if f.At(k) == Placeholder(k) {
          PlaceholdersApart(k, rest, h);
          ReplaceAllSkips(x, rest, Placeholder(h), r);
        } else {
          BracelessHasNoPlaceholder(x, rest, h);
          ReplaceAllSkips(x, rest, Placeholder(h), r);
        }
    }
  }
}
