// The telemedicine screen: a scheduling form, a video-call session with
// microphone and camera switches, and the appointment list shown as an
// upcoming view and a past view.

module Telemedicine {
  import opened Common

  datatype Status = Scheduled | Completed | Cancelled

  datatype Appointment = Appointment(id: string, doctorId: string, date: string, time: string, status: Status)

  /** `appointments.filter(a => a.status === status)` */
  function WithStatus(appts: seq<Appointment>, status: Status): (r: seq<Appointment>)
    ensures |r| <= |appts|
    ensures forall i :: 0 <= i < |r| ==> r[i].status == status
  {
    if appts == [] then []
    else if appts[0].status == status then [appts[0]] + WithStatus(appts[1..], status)
    else WithStatus(appts[1..], status)
  }

  /** The upcoming view. */
  function Upcoming(appts: seq<Appointment>): seq<Appointment> {
    WithStatus(appts, Scheduled)
  }

  /** The past view. */
  function Past(appts: seq<Appointment>): seq<Appointment> {
    WithStatus(appts, Completed)
  }

  /** An appointment is in the view of a status exactly when it is in the
      list with that status. */
  lemma {:induction false} WithStatusMembers(appts: seq<Appointment>, status: Status, a: Appointment)
    ensures a in WithStatus(appts, status) <==> a in appts && a.status == status
  {
    if appts != [] {
      WithStatusMembers(appts[1..], status, a);
      assert a in appts <==> a == appts[0] || a in appts[1..];
    }
  }

  /** The filter keeps list order: it works piece by piece. */
  lemma {:induction false} WithStatusConcat(a: seq<Appointment>, b: seq<Appointment>, status: Status)
    ensures WithStatus(a + b, status) == WithStatus(a, status) + WithStatus(b, status)
  {
    if a == [] {
      assert a + b == b;
    } else {
      assert (a + b)[1..] == a[1..] + b;
      WithStatusConcat(a[1..], b, status);
    }
  }

  /** Every appointment is in exactly one status view, so the upcoming and
      past views together miss exactly the cancelled ones. */
  lemma {:induction false} ViewsPartition(appts: seq<Appointment>)
    ensures |Upcoming(appts)| + |Past(appts)| + |WithStatus(appts, Cancelled)| == |appts|
  {
    if appts != [] {
      ViewsPartition(appts[1..]);
    }
  }

  lemma CancelledInNeitherView(appts: seq<Appointment>, a: Appointment)
    requires a.status == Cancelled
    ensures a !in Upcoming(appts) && a !in Past(appts)
  {
    WithStatusMembers(appts, Scheduled, a);
    WithStatusMembers(appts, Completed, a);
  }

  /** The scheduling form is filled when a doctor, a date and a time are all
      given (a null or empty doctor id counts as missing). */
  predicate FormFilled(doctor: Option<string>, date: string, time: string) {
    doctor.Some? && doctor.value != "" && date != "" && time != ""
  }

  class Consult {
    /** The list has no setter on this screen. */
    const appointments: seq<Appointment>
    var selectedDoctor: Option<string>
    var date: string
    var time: string
    var inCall: bool
    var audioEnabled: bool
    var videoEnabled: bool

    constructor ()
      ensures |appointments| == 3 && |Upcoming(appointments)| == 2 && |Past(appointments)| == 1
      ensures selectedDoctor == None && date == "" && time == ""
      ensures !inCall && audioEnabled && videoEnabled
    {
      appointments := [
        Appointment("1", "1", "April 15, 2023", "10:00 AM", Scheduled),
        Appointment("2", "3", "April 20, 2023", "2:30 PM", Scheduled),
        Appointment("3", "4", "March 28, 2023", "11:15 AM", Completed)
      ];
      selectedDoctor, date, time := None, "", "";
      inCall, audioEnabled, videoEnabled := false, true, true;
    }

    /** handleScheduleAppointment: only the form is reset; the list does not
        change. */
    method Schedule() returns (confirmed: bool)
      modifies this
      ensures confirmed == FormFilled(old(selectedDoctor), old(date), old(time))
      ensures confirmed ==> selectedDoctor == None && date == "" && time == ""
      ensures !confirmed ==> selectedDoctor == old(selectedDoctor) && date == old(date) && time == old(time)
      ensures inCall == old(inCall) && audioEnabled == old(audioEnabled) && videoEnabled == old(videoEnabled)
    {
      confirmed := FormFilled(selectedDoctor, date, time);
      if confirmed {
        selectedDoctor, date, time := None, "", "";
      }
    }

    /** handleJoinCall */
    method JoinCall(a: Appointment)
      modifies this
      ensures inCall
      ensures selectedDoctor == old(selectedDoctor) && date == old(date) && time == old(time)
      ensures audioEnabled == old(audioEnabled) && videoEnabled == old(videoEnabled)
    {
      inCall := true;
    }

    /** handleEndCall */
    method EndCall()
      modifies this
      ensures !inCall
      ensures selectedDoctor == old(selectedDoctor) && date == old(date) && time == old(time)
      ensures audioEnabled == old(audioEnabled) && videoEnabled == old(videoEnabled)
    {
      inCall := false;
    }

    /** toggleAudio */
    method ToggleAudio()
      modifies this
      ensures audioEnabled == !old(audioEnabled)
      ensures selectedDoctor == old(selectedDoctor) && date == old(date) && time == old(time)
      ensures inCall == old(inCall) && videoEnabled == old(videoEnabled)
    {
      audioEnabled := !audioEnabled;
    }

    /** toggleVideo */
    method ToggleVideo()
      modifies this
      ensures videoEnabled == !old(videoEnabled)
      ensures selectedDoctor == old(selectedDoctor) && date == old(date) && time == old(time)
      ensures inCall == old(inCall) && audioEnabled == old(audioEnabled)
    {
      videoEnabled := !videoEnabled;
    }
  }

  /** Toggling the microphone twice restores it and leaves the camera alone. */
  method ToggleAudioTwice(c: Consult)
    modifies c
    ensures c.audioEnabled == old(c.audioEnabled) && c.videoEnabled == old(c.videoEnabled)
    ensures c.inCall == old(c.inCall)
  {
    c.ToggleAudio();
    c.ToggleAudio();
  }
}
