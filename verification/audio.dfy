/** The three always-mounted audio elements of the page (background song,
    NO-popup sound, YES-popup song), each abstracted to the four properties
    the component reads or writes. */
module Audio {

  /** One audio element. `volume` is in hundredths (0.33 is 33).
      `rewound` says the play head sits at the start and nothing has played
      since it was put there. */
  datatype Channel = Channel(playing: bool, rewound: bool, loop: bool, volume: nat)

  /** Levels the component sets before playing each channel. */
  const BgVolume: nat := 33
  const NoVolume: nat := 70
  const YesVolume: nat := 85

  /** A freshly mounted element: paused at the start, not looping, full volume. */
  function Fresh(): Channel
  {
    Channel(false, true, false, 100)
  }

  /** `stop`: pause and rewind to the start; loop and volume are kept. */
  function Stop(c: Channel): (r: Channel)
    ensures !r.playing && r.rewound
    ensures r.loop == c.loop && r.volume == c.volume
  {
    c.(playing := false, rewound := true)
  }

  /** `pause`: silence the channel but keep its position. */
  function Pause(c: Channel): (r: Channel)
    ensures !r.playing
    ensures r.rewound == c.rewound && r.loop == c.loop && r.volume == c.volume
  {
    c.(playing := false)
  }

  /** `play`: `ok` is the outcome of the browser's play promise. A rejected
      attempt is swallowed and leaves the channel exactly as it was. */
  function Play(c: Channel, ok: bool): (r: Channel)
    ensures !ok ==> r == c
    ensures ok ==> r.playing && !r.rewound
    ensures r.loop == c.loop && r.volume == c.volume
  {
    if ok then c.(playing := true, rewound := false) else c
  }

  /** Set `loop = true` and the given volume, then `play`. The settings stick
      even when the play attempt is rejected. */
  function PlayLooped(c: Channel, volume: nat, ok: bool): (r: Channel)
    ensures r.loop && r.volume == volume
    ensures r.playing <==> ok || c.playing
    ensures !ok ==> r.rewound == c.rewound
  {
    Play(c.(loop := true, volume := volume), ok)
  }
}
