/** The resize notification an embedded widget sends to its host frame
    (`sendSizeToParent`). The measured box is passed in as whole pixels. */
module Sizing {
  import opened Optional

  datatype Rect = Rect(width: int, height: int)

  /** The `CHATBOT_RESIZE` message: the size the host should give the frame
      and whether the panel is open. */
  datatype ResizeMessage = ResizeMessage(width: int, height: int, isOpen: bool)

  /** The smallest footprint the host is asked for: the launcher button when
      closed, the panel when open. */
  const ClosedMin := 80
  const OpenMinWidth := 400
  const OpenMinHeight := 600

  function MinWidth(isOpen: bool): int { if isOpen then OpenMinWidth else ClosedMin }
  function MinHeight(isOpen: bool): int { if isOpen then OpenMinHeight else ClosedMin }

  function Max(a: int, b: int): (m: int)
    ensures m >= a && m >= b
    ensures m == a || m == b
  {
    if a >= b then a else b
  }

  /** The message for a measured box: each side is the measured side raised
      to the floor for the current panel state, and `isOpen` is copied. */
  function ResizePayload(isOpen: bool, box: Rect): (m: ResizeMessage)
    ensures m.isOpen == isOpen
    ensures m.width >= box.width && m.width >= MinWidth(isOpen)
    ensures m.width == box.width || m.width == MinWidth(isOpen)
    ensures m.height >= box.height && m.height >= MinHeight(isOpen)
    ensures m.height == box.height || m.height == MinHeight(isOpen)
  {
    ResizeMessage(Max(box.width, MinWidth(isOpen)), Max(box.height, MinHeight(isOpen)), isOpen)
  }

  /** The payload is the least size meeting both the measurement and the
      floor: any size that covers both covers the payload. */
  lemma ResizePayloadIsLeast(isOpen: bool, box: Rect, w: int, h: int)
    requires w >= box.width && w >= MinWidth(isOpen)
    requires h >= box.height && h >= MinHeight(isOpen)
    ensures ResizePayload(isOpen, box).width <= w
    ensures ResizePayload(isOpen, box).height <= h
  {
  }

  /** A box already at least as large as the floor is reported unchanged. */
  lemma LargeBoxReportedExactly(isOpen: bool, box: Rect)
    requires box.width >= MinWidth(isOpen) && box.height >= MinHeight(isOpen)
    ensures ResizePayload(isOpen, box) == ResizeMessage(box.width, box.height, isOpen)
  {
  }

  /** `sendSizeToParent` as a whole: nothing is sent unless the widget is
      embedded in a frame other than its own window and its container has
      been rendered (`box` is the container's measurement, if any). */
  function SizeNotification(embedded: bool, parentIsSelf: bool, box: Option<Rect>, isOpen: bool): (m: Option<ResizeMessage>)
    ensures m.Some? <==> embedded && !parentIsSelf && box.Some?
    ensures m.Some? ==> m.value == ResizePayload(isOpen, box.value)
  {
    if !embedded || parentIsSelf then None
    else if box.None? then None
    else Some(ResizePayload(isOpen, box.value))
  }

  /** An embedded, rendered, open widget asks for at least 400 by 600. */
  lemma OpenEmbeddedAtLeastPanel(box: Rect)
    ensures var m := SizeNotification(true, false, Some(box), true);
            m.Some? && m.value.isOpen && m.value.width >= 400 && m.value.height >= 600
  {
  }
}
