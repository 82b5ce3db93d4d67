/**
 * The slide-up menu: a modal sheet that is closed, partially revealed or
 * fully open, with a drag offset and some content the model treats as
 * opaque (the type parameter `V`).
 */
module Modals {
  import opened Wrappers

  /** Where the sheet rests. */
  datatype ModalState = Closed | PartiallyRevealed | Open

  /** A two-dimensional offset on screen. */
  datatype Offset = Offset(width: real, height: real)

  const ZeroOffset := Offset(0.0, 0.0)

  /** The sheet: closed, not dragged and empty unless told otherwise. */
  datatype Modal<V> = Modal(
    position: ModalState := Closed,
    dragOffset: Offset := ZeroOffset,
    content: Option<V> := None)

  /** The modal `newModal(position:content:)` installs. */
  function Installed<V>(position: ModalState, content: V): (m: Modal<V>)
    ensures m.position == position && m.content == Some(content)
    ensures m.dragOffset == ZeroOffset
  {
    Modal(position := position, content := Some(content))
  }

  /** The modal after `openModal()`. */
  function Opened<V>(m: Modal<V>): (o: Modal<V>)
    ensures o.position == PartiallyRevealed
    ensures o.content == m.content && o.dragOffset == m.dragOffset
  {
    m.(position := PartiallyRevealed)
  }

  /** The modal after `closeModal()`. */
  function Shut<V>(m: Modal<V>): (s: Modal<V>)
    ensures s.position == Closed
    ensures s.content == m.content && s.dragOffset == m.dragOffset
  {
    m.(position := Closed)
  }

  /** Opening twice is opening once, and so is closing; opening then closing closes. */
  lemma OpenCloseLaws<V>(m: Modal<V>)
    ensures Opened(Opened(m)) == Opened(m)
    ensures Shut(Shut(m)) == Shut(m)
    ensures Shut(Opened(m)) == Shut(m)
    ensures Shut(Opened(m)).position == Closed
  {
  }

  /** The three calls a view can make on the manager. */
  datatype Request<V> = NewModal(position: ModalState, content: V) | OpenModal | CloseModal

  function Apply<V>(m: Modal<V>, request: Request<V>): Modal<V>
  {
    match request
    case NewModal(position, content) => Installed(position, content)
    case OpenModal => Opened(m)
    case CloseModal => Shut(m)
  }

  /** The modal after the requests are served one after another. */
  function ApplyAll<V>(m: Modal<V>, requests: seq<Request<V>>): Modal<V>
    decreases |requests|
  {
    if requests == [] then m else ApplyAll(Apply(m, requests[0]), requests[1..])
  }

  /** The request asks for the fully open position. */
  predicate OpensFully<V>(request: Request<V>)
  {
    request.NewModal? && request.position == Open
  }

  /**
   * Only `newModal` with position `open` can open the sheet fully: from a
   * sheet that is not open, no run of requests without such a call opens it.
   */
  lemma {:induction false} OnlyNewModalOpensFully<V>(m: Modal<V>, requests: seq<Request<V>>)
    requires m.position != Open
    requires forall k :: 0 <= k < |requests| ==> !OpensFully(requests[k])
    ensures ApplyAll(m, requests).position != Open
    decreases |requests|
  {
    if requests != [] {
      OnlyNewModalOpensFully(Apply(m, requests[0]), requests[1..]);
    }
  }

  /** Any run of requests ending with `closeModal` leaves the sheet closed, its content that of the run before it. */
  lemma {:induction false} EndingWithCloseCloses<V>(m: Modal<V>, requests: seq<Request<V>>)
    ensures ApplyAll(m, requests + [CloseModal]) == Shut(ApplyAll(m, requests))
    decreases |requests|
  {
    if requests != [] {
      assert (requests + [CloseModal])[1..] == requests[1..] + [CloseModal];
      EndingWithCloseCloses(Apply(m, requests[0]), requests[1..]);
    }
  }

  class ModalManager<V> {
    var modal: Modal<V>

    /** A fresh manager holds a closed, empty, undragged sheet. */
    constructor ()
      ensures modal.position == Closed && modal.content == None
      ensures modal.dragOffset == ZeroOffset
    {
      modal := Modal(position := Closed, content := None);
    }

    /** `newModal(position:content:)`: replaces the whole sheet. */
    method NewModal(position: ModalState, content: V)
      modifies this
      ensures modal == Installed(position, content)
    {
      modal := Installed(position, content);
    }

    /** `openModal()`: reveals the sheet partially; content and offset stay. */
    method OpenModal()
      modifies this
      ensures modal == Opened(old(modal))
    {
      modal := Opened(modal);
    }

    /** `closeModal()`: closes the sheet; content and offset stay. */
    method CloseModal()
      modifies this
      ensures modal == Shut(old(modal))
    {
      modal := Shut(modal);
    }
  }
}
