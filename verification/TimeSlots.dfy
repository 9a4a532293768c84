/** Hour slots of a meeting and the availability test of a participant. */
module TimeSlots {
  import opened Common

  datatype TimeSlot = TimeSlot(date: string, start: int, end: int) {
    function Duration(): int {
      end - start
    }

    predicate IsGreaterThan(other: TimeSlot) {
      end > other.end
    }
  }

  /** The fields of a meeting the coordinators compute with. */
  datatype Meeting = Meeting(date: string, duration: int, minimum: int)

  /** The message a participant answers a request with. */
  datatype Answer = Answer(participant: string, slot: TimeSlot, available: bool)

  datatype Participant = Participant(name: string, windows: seq<TimeSlot>) {

    /** True when one of the participant's windows leaves room for the whole slot. */
    predicate Attends(slot: TimeSlot) {
      exists k :: 0 <= k < |windows| && HasOverlap(windows[k], slot, slot.Duration())
    }

    function HandleRequest(slot: TimeSlot): Answer {
      Answer(name, slot, Attends(slot))
    }

    /** Availability means that one window contains the slot hour by hour, whatever its date. */
    lemma AttendsMeansContained(slot: TimeSlot)
      ensures Attends(slot)
         <==> exists k :: 0 <= k < |windows| && windows[k].start <= slot.start && slot.end <= windows[k].end
    {
    }
  }

  predicate HasOverlap(slot1: TimeSlot, slot2: TimeSlot, duration: int) {
    var latestStart := Max(slot1.start, slot2.start);
    var earliestEnd := Min(slot1.end, slot2.end);
    earliestEnd - latestStart >= duration
  }

  /** The slot of a meeting that starts at a given hour. */
  function SlotAt(meeting: Meeting, start: int): TimeSlot {
    TimeSlot(meeting.date, start, start + meeting.duration)
  }
}
