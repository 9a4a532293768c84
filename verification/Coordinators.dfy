/** The two meeting coordinators: their handlers as state-changing methods, each proved
    against a function from the old state to the new one. */
module Coordinators {
  import opened Common
  import opened TimeSlots

  /** The scheduler keys its tally by date and start; the other coordinator by the whole slot. */
  datatype SlotKey = ByStart(date: string, start: int) | BySlot(slot: TimeSlot)

  datatype Coord = Coord(current: Option<TimeSlot>, agreed: map<SlotKey, seq<string>>, stopped: bool) {
    function Names(key: SlotKey): seq<string> {
      if key in agreed then agreed[key] else []
    }
  }

  datatype Announcement = Announcement(slot: TimeSlot, names: seq<string>)

  /** What one handler call leaves behind: the new state, the slot it asked everyone about,
      and the meeting it announced before stopping. */
  datatype Reaction = Reaction(coord: Coord, asked: Option<TimeSlot>, announced: Option<Announcement>)

  const IDLE := Coord(None, map[], false)
  const FIRST_HOUR := 8

  // ----- time_scheduling.py -----

  function SchedulerOnConnect(m: Meeting, st: Coord): Reaction {
    if st.current.Some? then Reaction(st, None, None)
    else
      var first := SlotAt(m, FIRST_HOUR);
      Reaction(st.(current := Some(first)), Some(first), None)
  }

  function SchedulerOnAnswer(m: Meeting, st: Coord, a: Answer): Reaction {
    if !a.available then
      match st.current
      case None => Reaction(st, None, None)  // the attribute error is caught and logged
      case Some(slot) =>
        var next := SlotAt(m, slot.start + 1);
        Reaction(st.(current := Some(next)), Some(next), None)
    else
      var key := ByStart(a.slot.date, a.slot.start);
      var names := if a.participant in st.Names(key) then st.Names(key) else st.Names(key) + [a.participant];
      var st' := st.(agreed := st.agreed[key := names]);
      if |names| >= m.minimum then
        Reaction(st'.(stopped := true), None, Some(Announcement(a.slot, names)))
      else
        Reaction(st', None, None)
  }

  class Scheduler {
    const meeting: Meeting
    var currentSlot: Option<TimeSlot>
    var agreedSlots: map<SlotKey, seq<string>>
    var stopped: bool

    constructor (meeting: Meeting)
      ensures this.meeting == meeting && State() == IDLE
    {
      this.meeting := meeting;
      currentSlot, agreedSlots, stopped := None, map[], false;
    }

    ghost function State(): Coord
      reads this
    {
      Coord(currentSlot, agreedSlots, stopped)
    }

    method HandleConnection() returns (asked: Option<TimeSlot>)
      modifies this
      ensures old(currentSlot).None? ==> asked == Some(TimeSlot(meeting.date, 8, 8 + meeting.duration))
      ensures old(currentSlot).Some? ==> asked == None
      ensures currentSlot == if asked.Some? then asked else old(currentSlot)
      ensures agreedSlots == old(agreedSlots) && stopped == old(stopped)
      ensures Reaction(State(), asked, None) == SchedulerOnConnect(meeting, old(State()))
    {
      asked := None;
      if currentSlot.None? {
        currentSlot := Some(SlotAt(meeting, FIRST_HOUR));
        asked := currentSlot;
      }
    }

    method HandleResponse(data: Answer) returns (asked: Option<TimeSlot>, announced: Option<Announcement>)
      modifies this
      ensures data.available || old(currentSlot).None? ==> asked == None && currentSlot == old(currentSlot)
      ensures !data.available && old(currentSlot).Some? ==>
        var hour := old(currentSlot).value.start + 1;
        asked == currentSlot == Some(TimeSlot(meeting.date, hour, hour + meeting.duration))
      ensures !data.available ==> agreedSlots == old(agreedSlots) && stopped == old(stopped) && announced == None
      ensures data.available ==>
        var key := ByStart(data.slot.date, data.slot.start);
        var earlier := if key in old(agreedSlots) then old(agreedSlots)[key] else [];
        var names := if data.participant in earlier then earlier else earlier + [data.participant];
        && agreedSlots == old(agreedSlots)[key := names]
        && stopped == (old(stopped) || |names| >= meeting.minimum)
        && announced == if |names| >= meeting.minimum then Some(Announcement(data.slot, names)) else None
      ensures Reaction(State(), asked, announced) == SchedulerOnAnswer(meeting, old(State()), data)
    {
      asked, announced := None, None;
      if !data.available {
        if currentSlot.Some? {
          currentSlot := Some(SlotAt(meeting, currentSlot.value.start + 1));
          asked := currentSlot;
        }
        return;
      }
      var slotKey := ByStart(data.slot.date, data.slot.start);
      if slotKey !in agreedSlots {
        agreedSlots := agreedSlots[slotKey := []];
      }
      if data.participant !in agreedSlots[slotKey] {
        agreedSlots := agreedSlots[slotKey := agreedSlots[slotKey] + [data.participant]];
      }
      if |agreedSlots[slotKey]| >= meeting.minimum {
        announced := Some(Announcement(data.slot, agreedSlots[slotKey]));
        stopped := true;
      }
    }
  }

  // ----- example_one.py -----

  function CoordinatorOnConnect(m: Meeting, st: Coord): Reaction {
    var first := SlotAt(m, FIRST_HOUR);
    Reaction(st.(current := Some(first)), Some(first), None)
  }

  function CoordinatorOnAnswer(m: Meeting, st: Coord, a: Answer): Reaction {
    var key := BySlot(a.slot);
    if a.available then
      if key !in st.agreed then
        // the first acceptance of a slot is never compared with the minimum
        Reaction(st.(agreed := st.agreed[key := [a.participant]]), None, None)
      else if a.participant in st.agreed[key] then
        Reaction(st, None, None)
      else
        var names := st.agreed[key] + [a.participant];
        var st' := st.(agreed := st.agreed[key := names]);
        if |names| >= m.minimum then
          Reaction(st'.(stopped := true), None, Some(Announcement(a.slot, names)))
        else
          Reaction(st', None, None)
    else
      var next := SlotAt(m, a.slot.start + 1);
      if st.current.Some? && next.IsGreaterThan(st.current.value) then
        Reaction(st.(current := Some(next)), Some(next), None)
      else
        Reaction(st, None, None)
  }

  class Coordinator {
    const meetingRequest: Meeting
    var agreedSlots: map<SlotKey, seq<string>>
    var nextTimeSlot: Option<TimeSlot>
    var stopped: bool

    constructor (meeting: Meeting)
      ensures meetingRequest == meeting && State() == IDLE
    {
      meetingRequest := meeting;
      nextTimeSlot, agreedSlots, stopped := None, map[], false;
    }

    ghost function State(): Coord
      reads this
    {
      Coord(nextTimeSlot, agreedSlots, stopped)
    }

    method OnAgentConnected() returns (asked: Option<TimeSlot>)
      modifies this
      ensures asked == nextTimeSlot == Some(TimeSlot(meetingRequest.date, 8, 8 + meetingRequest.duration))
      ensures agreedSlots == old(agreedSlots) && stopped == old(stopped)
      ensures Reaction(State(), asked, None) == CoordinatorOnConnect(meetingRequest, old(State()))
    {
      nextTimeSlot := Some(SlotAt(meetingRequest, FIRST_HOUR));
      asked := nextTimeSlot;
    }

    method OnMessage(data: Answer) returns (asked: Option<TimeSlot>, announced: Option<Announcement>)
      modifies this
      ensures !data.available ==>
        var hour := data.slot.start + 1;
        var next := TimeSlot(meetingRequest.date, hour, hour + meetingRequest.duration);
        && asked == (if old(nextTimeSlot).Some? && next.end > old(nextTimeSlot).value.end then Some(next) else None)
        && nextTimeSlot == (if asked.Some? then asked else old(nextTimeSlot))
        && agreedSlots == old(agreedSlots) && stopped == old(stopped) && announced == None
      ensures data.available ==> asked == None && nextTimeSlot == old(nextTimeSlot)
      ensures data.available ==>
        var earlier := if BySlot(data.slot) in old(agreedSlots) then old(agreedSlots)[BySlot(data.slot)] else [];
        var names := if data.participant in earlier then earlier else earlier + [data.participant];
        var due := BySlot(data.slot) in old(agreedSlots) && data.participant !in earlier
                   && |names| >= meetingRequest.minimum;
        && agreedSlots == old(agreedSlots)[BySlot(data.slot) := names]
        && stopped == (old(stopped) || due)
        && announced == if due then Some(Announcement(data.slot, names)) else None
      ensures Reaction(State(), asked, announced) == CoordinatorOnAnswer(meetingRequest, old(State()), data)
    {
      asked, announced := None, None;
      if data.available {
        var timeSlotKey := BySlot(data.slot);
        if timeSlotKey in agreedSlots {
          var slots := agreedSlots[timeSlotKey];
          assert agreedSlots[timeSlotKey := slots] == agreedSlots;
          if data.participant !in slots {
            slots := slots + [data.participant];
            agreedSlots := agreedSlots[timeSlotKey := slots];
            if |slots| >= meetingRequest.minimum {
              announced := Some(Announcement(data.slot, slots));
              stopped := true;
            }
          }
        } else {
          assert [] + [data.participant] == [data.participant];
          agreedSlots := agreedSlots[timeSlotKey := [data.participant]];
        }
      } else {
        var calculated := SlotAt(meetingRequest, data.slot.start + 1);
        if nextTimeSlot.Some? && calculated.IsGreaterThan(nextTimeSlot.value) {
          nextTimeSlot := Some(calculated);
          asked := nextTimeSlot;
        }
      }
    }
  }
}
