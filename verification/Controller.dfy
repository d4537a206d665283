/**
The fields of the player controller (internal/playback/controller.go) and the sections that change them
under `mu`. A context is named by the generation it was made for.
*/
module ControllerModel {
  import opened Wrappers

  datatype Request = Request(video: string, source: string)

  const NO_REQUEST := Request("", "")

  /** The controller's fields, with the contexts that have been cancelled so far. */
  datatype Fields = Fields(
    current: Request, title: string, generation: nat, cancel: Option<nat>, cancelled: set<nat>, closed: bool)

  function Cancelled(f: Fields): set<nat> {
    if f.cancel.Some? then f.cancelled + {f.cancel.value} else f.cancelled
  }

  /** A play begins: the resolution before it is cancelled, and it becomes the newest generation. */
  function Begun(f: Fields): Fields {
    f.(generation := f.generation + 1, cancel := Some(f.generation + 1), cancelled := Cancelled(f))
  }

  /** Whether a resolved attempt may be loaded. */
  predicate IsAdmitted(f: Fields, generation: nat) {
    generation == f.generation && generation !in f.cancelled && !f.closed
  }

  predicate IsActive(f: Fields, generation: nat) {
    generation == f.generation && !f.closed
  }

  /** A finished load becomes current only while its generation is the newest. */
  function Recorded(f: Fields, generation: nat, request: Request, title: string, ok: bool): Fields {
    if ok && IsActive(f, generation) then f.(current := request, title := title) else f
  }

  /** A stop is a generation of its own, which nothing will be loaded for. */
  function Stopped(f: Fields): Fields {
    f.(generation := f.generation + 1, current := NO_REQUEST, title := "", cancel := None, cancelled := Cancelled(f))
  }

  class Controller {
    var current: Request
    var resolvedTitle: string
    var playGeneration: nat
    var cancelResolution: Option<nat>
    var closed: bool
    var cancelled: set<nat>

    constructor ()
      ensures State() == Fields(NO_REQUEST, "", 0, None, {}, false)
    {
      current, resolvedTitle, playGeneration, cancelResolution, closed, cancelled := NO_REQUEST, "", 0, None, false, {};
    }

    function State(): Fields
      reads this
    {
      Fields(current, resolvedTitle, playGeneration, cancelResolution, cancelled, closed)
    }

    /** `PlayAtTracked`; the attempt itself runs on under the generation returned. */
    method PlayAtTracked() returns (generation: Option<nat>)
      modifies this
      ensures generation.None? <==> old(closed)
      ensures State() == if old(closed) then old(State()) else Begun(old(State()))
      ensures generation.Some? ==> generation.value == playGeneration
    {
      if closed {
        return None;
      }
      var newest := BeginPlay();
      return Some(newest);
    }

    /** The section of `PlayAtTracked` under the mutex. */
    method BeginPlay() returns (generation: nat)
      modifies this
      ensures State() == Begun(old(State())) && generation == playGeneration == old(playGeneration) + 1
      ensures cancelResolution == Some(generation) && current == old(current) && closed == old(closed)
      ensures cancelled == old(cancelled) + if old(cancelResolution).Some? then {old(cancelResolution).value} else {}
    {
      if cancelResolution.Some? {
        cancelled := cancelled + {cancelResolution.value};
      }
      playGeneration := playGeneration + 1;
      cancelResolution := Some(playGeneration);
      return playGeneration;
    }

    /** The check of `play` before loading. */
    method Admit(generation: nat) returns (admitted: bool)
      ensures admitted <==> IsAdmitted(State(), generation)
      ensures admitted <==> generation == playGeneration && generation !in cancelled && !closed
    {
      if generation != playGeneration || generation in cancelled || closed {
        return false;
      }
      return true;
    }

    /** The section of `play` after loading. */
    method Record(generation: nat, request: Request, title: string, ok: bool) returns (active: bool)
      modifies this`current, this`resolvedTitle
      ensures State() == Recorded(old(State()), generation, request, title, ok)
      ensures active <==> IsActive(old(State()), generation)
      ensures active <==> generation == playGeneration && !closed
      ensures ok && active ==> current == request && resolvedTitle == title
      ensures !(ok && active) ==> current == old(current) && resolvedTitle == old(resolvedTitle)
    {
      active := generation == playGeneration && !closed;
      if ok && active {
        current := request;
        resolvedTitle := title;
      }
    }

    /** The section of `Stop` under the mutex. */
    method StopSection() returns (generation: nat)
      modifies this
      ensures State() == Stopped(old(State())) && generation == playGeneration == old(playGeneration) + 1
      ensures current == NO_REQUEST && resolvedTitle == "" && cancelResolution == None && closed == old(closed)
      ensures cancelled == old(cancelled) + if old(cancelResolution).Some? then {old(cancelResolution).value} else {}
    {
      if cancelResolution.Some? {
        cancelled := cancelled + {cancelResolution.value};
        cancelResolution := None;
      }
      playGeneration := playGeneration + 1;
      current := NO_REQUEST;
      resolvedTitle := "";
      return playGeneration;
    }

    /** The first step of `Close`, an atomic compare-and-swap. */
    method CloseFlag() returns (first: bool)
      modifies this`closed
      ensures first <==> !old(closed)
      ensures State() == old(State()).(closed := true)
    {
      first := !closed;
      closed := true;
    }

    /** The section of `Close` under the mutex. */
    method CloseSection()
      modifies this`cancelled
      ensures State() == old(State()).(cancelled := Cancelled(old(State())))
      ensures cancelResolution.Some? ==> cancelResolution.value in cancelled
    {
      if cancelResolution.Some? {
        cancelled := cancelled + {cancelResolution.value};
      }
    }

    /** `Current` */
    method Current() returns (request: Option<Request>)
      ensures request == if current == NO_REQUEST then None else Some(current)
    {
      if current.source == "" && current.video == "" {
        return None;
      }
      return Some(current);
    }
  }
}
