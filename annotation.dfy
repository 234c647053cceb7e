/** What is drawn on the published frame for each kept face: its rectangle,
    in a colour keyed to the label, and the label's name. */
module Annotation {
  import opened Types

  /** An OpenCV colour, channels in blue, green, red order. */
  datatype Colour = Colour(blue: int, green: int, red: int)

  /** One face's drawing: the rectangle, its colour and the label text. */
  datatype Mark = Mark(rect: Rect, colour: Colour, text: string)

  /** The colour a face of the given label is outlined in. */
  function LabelColour(e: Emotion): (c: Colour)
    ensures ColourLabel(c) == Some(e)
  {
    match e
    case Happy => Colour(0, 255, 0)
    case Sad => Colour(255, 0, 0)
    case Angry => Colour(0, 0, 255)
    case Surprised => Colour(255, 255, 0)
    case Fearful => Colour(255, 0, 255)
    case Disgusted => Colour(128, 0, 128)
    case Neutral => Colour(128, 128, 128)
  }

  /** The text written above a face of the given label: the label's name. */
  function LabelText(e: Emotion): (t: string)
    ensures TextLabel(t) == Some(e)
  {
    match e
    case Happy => "Happy"
    case Sad => "Sad"
    case Angry => "Angry"
    case Surprised => "Surprised"
    case Fearful => "Fearful"
    case Disgusted => "Disgusted"
    case Neutral => "Neutral"
  }

  /** Reads a label back from an outline colour; None for a colour no label
      is drawn in. */
  function ColourLabel(c: Colour): Option<Emotion>
  {
    if c == Colour(0, 255, 0) then Some(Happy)
    else if c == Colour(255, 0, 0) then Some(Sad)
    else if c == Colour(0, 0, 255) then Some(Angry)
    else if c == Colour(255, 255, 0) then Some(Surprised)
    else if c == Colour(255, 0, 255) then Some(Fearful)
    else if c == Colour(128, 0, 128) then Some(Disgusted)
    else if c == Colour(128, 128, 128) then Some(Neutral)
    else None
  }

  /** Reads a label back from the text written above a face; None for a text
      no label is written as. */
  function TextLabel(t: string): Option<Emotion>
  {
    if t == "Happy" then Some(Happy)
    else if t == "Sad" then Some(Sad)
    else if t == "Angry" then Some(Angry)
    else if t == "Surprised" then Some(Surprised)
    else if t == "Fearful" then Some(Fearful)
    else if t == "Disgusted" then Some(Disgusted)
    else if t == "Neutral" then Some(Neutral)
    else None
  }

  /** The drawing can be read back: different labels get different colours
      and different texts, so a mark identifies its label. */
  lemma MarksIdentifyLabels(e1: Emotion, e2: Emotion)
    requires e1 != e2
    ensures LabelColour(e1) != LabelColour(e2)
    ensures LabelText(e1) != LabelText(e2)
  {
  }

  /** The mark drawn for a face of rectangle `r` given label `e`: its label
      can be read back from its colour and from its text alike. */
  function MarkFor(r: Rect, e: Emotion): (m: Mark)
    ensures m.rect == r
    ensures ColourLabel(m.colour) == Some(e) && TextLabel(m.text) == Some(e)
  {
    Mark(r, LabelColour(e), LabelText(e))
  }
}
