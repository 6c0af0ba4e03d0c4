/** The presence payload that `set_current_activity` builds from the current
    activity before handing it to the IPC client's `set_activity`. */
module Payload {
  import opened Types

  /** The image part of a presence; every field starts unset, as in `Assets::new()`. */
  datatype Assets = Assets(
    largeImage: Option<string>,
    largeText: Option<string>,
    smallImage: Option<string>,
    smallText: Option<string>)

  /** A button as the presence protocol carries it (`Button::new(label, url)`). */
  datatype Button = Button(text: string, url: string)

  /** The activity sent to the endpoint: texts, a "started at" stamp in seconds
      since the epoch, the optional image part and the optional buttons. */
  datatype Presence = Presence(
    details: string,
    state: string,
    start: int,
    assets: Option<Assets>,
    buttons: Option<seq<Button>>)

  /** The endpoint's nesting rule: a small image only beside a large one, and a
      small caption only beside a small image. */
  predicate WellNested(a: Assets) {
    && (a.smallImage.Some? ==> a.largeImage.Some?)
    && (a.smallText.Some? ==> a.smallImage.Some?)
  }

  /** The image part for one activity: none at all unless `large_image` is set;
      the small caption is dropped when there is no small image. */
  function BuildAssets(c: ActivityConfig): (r: Option<Assets>)
    ensures r.Some? <==> c.largeImage.Some?
    ensures r.Some? ==> WellNested(r.value)
    ensures r.Some? ==> r.value.largeImage == c.largeImage && r.value.largeText == c.largeText
    ensures r.Some? ==> r.value.smallImage == c.smallImage
    ensures r.Some? && c.smallImage.Some? ==> r.value.smallText == c.smallText
  {
    match c.largeImage
    case None => None
    case Some(large) =>
      var small := c.smallImage;
      var caption := if small.Some? then c.smallText else None;
      Some(Assets(Some(large), c.largeText, small, caption))
  }

  /** The configured buttons, converted one by one: the count and the display
      order are kept. */
  function ConvertButtons(bs: seq<ButtonConfig>): (r: seq<Button>)
    ensures |r| == |bs|
    ensures forall i :: 0 <= i < |bs| ==> r[i] == Button(bs[i].text, bs[i].url)
  {
    if bs == [] then [] else [Button(bs[0].text, bs[0].url)] + ConvertButtons(bs[1..])
  }

  /** The payload for activity `c`, stamped as started at `startSecs`. */
  function Build(c: ActivityConfig, startSecs: int): (p: Presence)
    ensures p.details == c.details && p.state == c.state && p.start == startSecs
    ensures p.assets == BuildAssets(c)
    ensures p.buttons.Some? <==> c.buttons.Some?
    ensures c.buttons.Some? ==> |p.buttons.value| == |c.buttons.value|
    ensures c.buttons.Some? ==> forall i :: 0 <= i < |c.buttons.value| ==>
      p.buttons.value[i] == Button(c.buttons.value[i].text, c.buttons.value[i].url)
  {
    var buttons := if c.buttons.Some? then Some(ConvertButtons(c.buttons.value)) else None;
    Presence(c.details, c.state, startSecs, BuildAssets(c), buttons)
  }

  /** Two publishes of the same activity differ at most in their start stamp:
      the elapsed-time display restarts on every publish. */
  lemma RepublishDiffersOnlyInStart(c: ActivityConfig, t1: int, t2: int)
    ensures Build(c, t1) == Build(c, t2).(start := t1)
  {
  }
}
