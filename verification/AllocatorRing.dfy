/** Two command allocators, used in turn and reset only when the device is done with them. */
module AllocatorRing {
  import opened Device

  class DmlCommandAllocatorRing {
    const gpu: Gpu
    var completionEvents: seq<nat>
    var current: nat
    ghost var lastUses: seq<nat>       // the fence of the last list recorded with each allocator that was submitted
    ghost var recording: bool          // a list is being recorded with the current allocator

    function Other(): nat
      reads this
    {
      (current + 1) % 2
    }

    /** The current allocator's event is the later one, and both cover the work recorded with them. */
    ghost predicate Valid()
      reads this, gpu
    {
      && gpu.Valid() && |completionEvents| == |lastUses| == 2 && current < 2
      && completionEvents[Other()] <= completionEvents[current]
      && forall i :: 0 <= i < 2 ==> lastUses[i] <= completionEvents[i]
    }

    constructor (gpu: Gpu, initialEvent: nat)
      requires gpu.Valid()
      ensures Valid() && this.gpu == gpu && completionEvents == [initialEvent, initialEvent] && !recording
    {
      this.gpu, completionEvents, current, lastUses, recording := gpu, [initialEvent, initialEvent], 0, [0, 0], false;
    }

    /** A new signal does not disturb the ring. */
    twostate lemma Undisturbed()
      requires old(Valid()) && unchanged(this) && gpu.Valid()
      ensures Valid() && current < |completionEvents|
    {
    }

    /** Moves to the other allocator, resetting it, when the device is done with it. */
    method GetNextAllocator(nextCompletionEvent: nat) returns (allocator: nat)
      requires Valid() && !recording && completionEvents[current] <= nextCompletionEvent
      modifies this`completionEvents, this`current, this`recording, gpu`completed
      ensures Valid() && gpu.completed >= old(gpu.completed) && allocator == current && recording
      ensures completionEvents[current] == nextCompletionEvent && lastUses == old(lastUses)
      ensures current != old(current) ==> lastUses[current] <= gpu.completed
      ensures old(completionEvents[Other()] <= gpu.completed) ==> current == old(Other())
      ensures old(completionEvents[Other()]) > gpu.completed ==> current == old(current)
      ensures completionEvents[Other()] == if current == old(current) then old(completionEvents[Other()])
        else old(completionEvents[current])
    {
      var other := Other();
      var first := gpu.Poll();
      var currentSignaled := completionEvents[current] <= first;
      var second := gpu.Poll();
      assert !currentSignaled || completionEvents[other] <= second;  // asserted by GetNextAllocator
      var third := gpu.Poll();
      if completionEvents[other] <= third {
        assert lastUses[other] <= gpu.completed && !recording;  // what resetting an allocator demands
        current := other;
      }
      completionEvents := completionEvents[current := nextCompletionEvent];
      allocator := current;
      recording := true;
    }

    method UpdateCurrentAllocatorCompletionEvent(nextCompletionEvent: nat)
      requires Valid() && completionEvents[current] <= nextCompletionEvent
      modifies this`completionEvents
      ensures Valid() && completionEvents[current] == nextCompletionEvent
        && completionEvents[Other()] == old(completionEvents)[Other()]
    {
      completionEvents := completionEvents[current := nextCompletionEvent];
    }

    /** The list recorded with the current allocator is closed, and submitted when `fence` is given. */
    ghost method ListClosed(fence: Option<nat>)
      requires Valid() && (fence.Some? ==> fence.value <= completionEvents[current])
      modifies this`lastUses, this`recording
      ensures Valid() && !recording && lastUses == if fence.Some? then old(lastUses)[current := fence.value]
        else old(lastUses)
    {
      if fence.Some? {
        lastUses := lastUses[current := fence.value];
      }
      recording := false;
    }
  }
}
