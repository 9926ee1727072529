/** The mailboxes of src/syscall.c: eight places for each process, filled from the front and
    shifted down in place when the first message is taken. */
module Mailboxes {
  import opened ProcessState

  const SLOTS: nat := MAX_PROCESSES

  /** memmove within row `p`: the first `n` places move down by one, the first of them is lost. */
  method ShiftDown(places: array2<Message>, p: int, n: nat)
    requires 0 <= p < places.Length0 && 0 < n <= places.Length1
    modifies places
    ensures forall q, j :: 0 <= q < places.Length0 && 0 <= j < places.Length1 ==>
              places[q, j] == old(if q == p && j < n - 1 then places[q, j + 1] else places[q, j])
  {
    for i := 0 to n - 1
      invariant forall q, j :: 0 <= q < places.Length0 && 0 <= j < places.Length1 ==>
                  places[q, j] == old(if q == p && j < i then places[q, j + 1] else places[q, j])
    {
      places[p, i] := places[p, i + 1];
    }
  }

  class MailRoom {
    const places: array2<Message>
    const sizes: array<nat>  // mailbox_size
    const made: array<bool>  // mailbox is not NULL
    ghost var boxes: seq<seq<Message>>

    ghost predicate Valid()
      reads this, places, sizes, made
    {
      && places.Length0 == sizes.Length == made.Length == |boxes| == SLOTS && places.Length1 == MAILBOX
      && (forall p :: 0 <= p < SLOTS ==> sizes[p] == |boxes[p]| <= MAILBOX && (sizes[p] > 0 ==> made[p]))
      && (forall p, i :: 0 <= p < SLOTS && 0 <= i < |boxes[p]| ==> places[p, i] == boxes[p][i])
    }

    constructor ()
      ensures Valid() && fresh(places) && fresh(sizes) && fresh(made)
      ensures forall p :: 0 <= p < SLOTS ==> boxes[p] == []
    {
      places := new Message[SLOTS, MAILBOX]((_, _) => Message(0, 0, []));
      sizes, made := new nat[SLOTS](_ => 0), new bool[SLOTS](_ => false);
      boxes := seq(SLOTS, _ => []);
    }

    /** memset: the process in the slot is a new one. */
    method Clear(p: int)
      requires Valid() && 0 <= p < SLOTS
      modifies this, sizes, made
      ensures Valid() && boxes == old(boxes)[p := []]
    {
      sizes[p], made[p] := 0, false;
      boxes := boxes[p := []];
    }

    /** The three branches of syscall_send: a new mailbox, one with room, a full one. */
    method Put(p: int, msg: Message) returns (ok: bool)
      requires Valid() && 0 <= p < SLOTS
      modifies this, places, sizes, made
      ensures Valid() && ok == (|old(boxes)[p]| < MAILBOX)
      ensures boxes == if ok then old(boxes)[p := old(boxes)[p] + [msg]] else old(boxes)
    {
      if !made[p] {
        made[p] := true;
        sizes[p] := 1;
      } else if sizes[p] < MAILBOX {
        sizes[p] := sizes[p] + 1;
      } else {
        return false;
      }
      places[p, sizes[p] - 1] := msg;
      boxes := boxes[p := boxes[p] + [msg]];
      ok := true;
    }

    /** The first message; the others move down one place each. */
    method Take(p: int) returns (msg: Message)
      requires Valid() && 0 <= p < SLOTS && boxes[p] != []
      modifies this, places, sizes
      ensures Valid() && msg == old(boxes)[p][0] && boxes == old(boxes)[p := old(boxes)[p][1..]]
    {
      msg := places[p, 0];
      ShiftDown(places, p, sizes[p]);
      sizes[p] := sizes[p] - 1;
      boxes := boxes[p := boxes[p][1..]];
    }
  }
}
