/** The selection and background-audio state of the hero component: which
    card's video is open (`selectedImage`), the effect that mutes the
    background audio while a video is open and restores it afterwards, and
    the mute toggle.

    `MediaState` and the functions over it say what each user action does;
    the class `HeroMedia` holds the same state in mutable fields and its
    methods are proved to follow those functions. */
module MediaSelection {

  /** The number of entries in the media catalog `MEDIA_ITEMS`; the cards
      are its first `TOTAL_IMAGES` (also 20) entries, so a clicked card is
      always a valid catalog index. */
  const CatalogSize: nat := 20

  /** Volume of the background audio when it is created. */
  const InitialVolume: real := 0.3

  datatype Option<T> = None | Some(value: T)

  /** `selectedImage`; whether the audio element exists (`audioRef.current`)
      and its `volume` and `muted` properties; `previousVolumeRef.current`;
      and the `isMuted` state. */
  datatype MediaState = MediaState(
    selected: Option<nat>,
    audioPresent: bool,
    volume: real,
    muted: bool,
    previousVolume: real,
    isMuted: bool)

  /** The state once the component has mounted: the audio exists at volume
      0.3, unmuted, no video is open, and the selection effect has already
      run once with no selection (restoring the remembered 0.3). */
  function Mounted(): (st: MediaState)
    ensures Invariant(st) && st.selected == None && st.audioPresent && st.volume == InitialVolume
  {
    MediaState(None, true, InitialVolume, false, InitialVolume, false)
  }

  /** The invariant of the selection state: an open video is a catalog
      entry; volumes stay in `[0, 1]`; the audio element's mute flag mirrors
      `isMuted`; while a video is open the audio is silent, and while none
      is, the audio plays at the remembered volume. */
  predicate Invariant(st: MediaState)
  {
    (st.selected.Some? ==> st.selected.value < CatalogSize) &&
    0.0 <= st.volume <= 1.0 && 0.0 <= st.previousVolume <= 1.0 &&
    (st.audioPresent ==> st.muted == st.isMuted) &&
    (st.audioPresent && st.selected.Some? ==> st.volume == 0.0) &&
    (st.audioPresent && st.selected.None? ==> st.volume == st.previousVolume)
  }

  /** The effect run after `selectedImage` changes: with a video open it
      remembers the current volume and silences the audio, with none open
      it restores the remembered volume; without an audio element it does
      nothing. */
  function SelectionEffect(st: MediaState): (r: MediaState)
    ensures r.selected == st.selected && r.audioPresent == st.audioPresent
    ensures r.muted == st.muted && r.isMuted == st.isMuted
    ensures !st.audioPresent ==> r == st
    ensures st.audioPresent && st.selected.Some? ==> r.volume == 0.0 && r.previousVolume == st.volume
    ensures st.audioPresent && st.selected.None? ==> r.volume == st.previousVolume && r.previousVolume == st.previousVolume
  {
    if st.audioPresent then
      if st.selected.Some? then st.(previousVolume := st.volume, volume := 0.0)
      else st.(volume := st.previousVolume)
    else st
  }

  /** `setSelectedImage(s)`: setting the value it already has changes
      nothing (the effect does not run); any other value is stored and the
      effect runs. */
  function SetSelected(st: MediaState, s: Option<nat>): (r: MediaState)
    ensures r.selected == s
    ensures s == st.selected ==> r == st
    ensures s != st.selected ==> r == SelectionEffect(st.(selected := s))
  {
    if s == st.selected then st else SelectionEffect(st.(selected := s))
  }

  /** A click on card `i`. */
  function Click(st: MediaState, i: nat): (r: MediaState)
    requires i < CatalogSize
    requires Invariant(st)
    ensures Invariant(r)
    ensures r.selected == Some(i)
    ensures st.audioPresent && st.selected == None ==> r.volume == 0.0 && r.previousVolume == st.volume
    ensures st.selected == Some(i) ==> r == st
  {
    SetSelected(st, Some(i))
  }

  /** The close button. */
  function Close(st: MediaState): (r: MediaState)
    requires Invariant(st)
    ensures Invariant(r)
    ensures r.selected == None
    ensures st.audioPresent && st.selected.Some? ==> r.volume == st.previousVolume
    ensures st.selected == None ==> r == st
  {
    SetSelected(st, None)
  }

  /** `toggleAudioMute`: with an audio element, `isMuted` flips and the
      element's mute flag is set to the new value; without one, nothing
      changes. */
  function ToggleMute(st: MediaState): (r: MediaState)
    requires Invariant(st)
    ensures Invariant(r)
    ensures st.audioPresent ==> r.isMuted == !st.isMuted && r.muted == r.isMuted
    ensures !st.audioPresent ==> r == st
    ensures r.selected == st.selected && r.volume == st.volume && r.previousVolume == st.previousVolume
  {
    if st.audioPresent then st.(muted := !st.isMuted, isMuted := !st.isMuted) else st
  }

  /** Opening a video and closing it again, with no other click in
      between, restores the whole state, and with it the audio volume. */
  lemma DirectRoundTrip(st: MediaState, i: nat)
    requires Invariant(st) && st.selected == None && i < CatalogSize
    ensures Close(Click(st, i)) == st
  {
  }

  /** Clicking a second card while a video is open saves the volume, which
      is already 0, over the remembered one: the close that follows leaves
      the background audio silent, whatever its volume was before. */
  lemma SwitchLosesVolume(st: MediaState, i: nat, j: nat)
    requires Invariant(st) && st.selected == None && st.audioPresent
    requires i < CatalogSize && j < CatalogSize && i != j
    ensures Close(Click(Click(st, i), j)).volume == 0.0
    ensures Close(Click(Click(st, i), j)).previousVolume == 0.0
  {
  }

  /** Toggling the mute twice is no change at all. */
  lemma ToggleMuteTwice(st: MediaState)
    requires Invariant(st)
    ensures ToggleMute(ToggleMute(st)) == st
  {
  }

  /** A user action on the hero. */
  datatype Action = ClickCard(index: nat) | CloseVideo | ToggleAudio

  /** Every click in `acts` is on one of the cards. */
  predicate OnCards(acts: seq<Action>)
  {
    forall k :: 0 <= k < |acts| ==> acts[k].ClickCard? ==> acts[k].index < CatalogSize
  }

  function Apply(st: MediaState, a: Action): (r: MediaState)
    requires Invariant(st)
    requires a.ClickCard? ==> a.index < CatalogSize
    ensures Invariant(r)
  {
    match a
    case ClickCard(i) => Click(st, i)
    case CloseVideo => Close(st)
    case ToggleAudio => ToggleMute(st)
  }

  /** The state after the actions `acts`, in order. */
  function Replay(st: MediaState, acts: seq<Action>): (r: MediaState)
    requires Invariant(st) && OnCards(acts)
    decreases |acts|
  {
    if acts == [] then st else Replay(Apply(st, acts[0]), acts[1..])
  }

  /** Whatever the user does, the invariant holds: the open video is a
      catalog entry, the volume is in range, the mute flag mirrors
      `isMuted`, and the audio is silent exactly while a video is open. */
  lemma {:induction false} ReplayKeepsInvariant(st: MediaState, acts: seq<Action>)
    requires Invariant(st) && OnCards(acts)
    ensures Invariant(Replay(st, acts))
    decreases |acts|
  {
    if acts != [] {
      ReplayKeepsInvariant(Apply(st, acts[0]), acts[1..]);
    }
  }

  /** The actions never click a card other than the open one: `current` is
      the selection before them. */
  predicate NoSwitch(current: Option<nat>, acts: seq<Action>)
    decreases |acts|
  {
    acts == [] ||
    match acts[0]
    case ClickCard(i) => (current == None || current == Some(i)) && NoSwitch(Some(i), acts[1..])
    case CloseVideo => NoSwitch(None, acts[1..])
    case ToggleAudio => NoSwitch(current, acts[1..])
  }

  /** As long as no second card is clicked while a video is open, the
      remembered volume never changes, and whenever no video is open the
      background audio plays at that volume again. */
  lemma {:induction false} NoSwitchKeepsVolume(st: MediaState, acts: seq<Action>)
    requires Invariant(st) && OnCards(acts) && st.audioPresent
    requires NoSwitch(st.selected, acts)
    ensures Replay(st, acts).previousVolume == st.previousVolume
    ensures Replay(st, acts).selected == None ==> Replay(st, acts).volume == st.previousVolume
    decreases |acts|
  {
    if acts != [] {
      var next := Apply(st, acts[0]);
      assert next.audioPresent && next.previousVolume == st.previousVolume;
      NoSwitchKeepsVolume(next, acts[1..]);
    }
  }

  /** The selection state of one mounted hero, updated in place by the
      click, close and mute handlers. */
  class HeroMedia {
    var selectedImage: Option<nat>
    var audioPresent: bool
    var volume: real
    var muted: bool
    var previousVolume: real
    var isMuted: bool

    ghost function State(): MediaState
      reads this
    {
      MediaState(selectedImage, audioPresent, volume, muted, previousVolume, isMuted)
    }

    ghost predicate Valid()
      reads this
    {
      Invariant(State())
    }

    /** The state once mounted. */
    constructor Mount()
      ensures Valid() && State() == Mounted()
    {
      selectedImage := None;
      audioPresent := true;
      volume := InitialVolume;
      muted := false;
      previousVolume := InitialVolume;
      isMuted := false;
    }

    /** The effect on `selectedImage`. */
    method SyncAudioWithSelection()
      modifies this
      ensures State() == SelectionEffect(old(State()))
    {
      if audioPresent {
        if selectedImage != None {
          previousVolume := volume;
          volume := 0.0;
        } else {
          volume := previousVolume;
        }
      }
    }

    /** A click on card `i`: the selection is stored and, if it changed,
        the effect runs. */
    method ClickCard(i: nat)
      requires Valid() && i < CatalogSize
      modifies this
      ensures Valid() && State() == Click(old(State()), i)
    {
      if selectedImage != Some(i) {
        selectedImage := Some(i);
        SyncAudioWithSelection();
      }
    }

    /** The close button: the selection is cleared and, if it changed, the
        effect runs. */
    method CloseVideo()
      requires Valid()
      modifies this
      ensures Valid() && State() == Close(old(State()))
    {
      if selectedImage != None {
        selectedImage := None;
        SyncAudioWithSelection();
      }
    }

    /** The mute button. */
    method ToggleAudioMute()
      requires Valid()
      modifies this
      ensures Valid() && State() == ToggleMute(old(State()))
    {
      if audioPresent {
        muted := !isMuted;
        isMuted := !isMuted;
      }
    }

    /** Unmount: the audio element is paused and dropped, so later mute
        toggles and selection effects find none. */
    method ReleaseAudio()
      requires Valid()
      modifies this`audioPresent
      ensures Valid() && State() == old(State()).(audioPresent := false)
    {
      audioPresent := false;
    }
  }
}
