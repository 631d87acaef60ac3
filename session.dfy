/**
 * The client session: the `Client` object and the collaborators it talks to, kept
 * abstract (world, renderer, audio device, network client, per-slot player views).
 */
module Session {
  import opened Types
  import opened Follow
  import opened Router
  import opened FileNames
  import opened FrameRules
  import opened SpawnRules

  /** A voxel map; only its identity matters to the client. */
  class GameMap {
    constructor () {}
  }

  /** The simulation state the client binds to: fixed player slots, a map and a listener registration. */
  class World {
    const numSlots: nat
    var players: seq<Slot>
    var localPlayerId: Option<nat>
    const gameMap: GameMap?
    var listener: Client?

    ghost predicate Valid()
      reads this
    {
      |players| == numSlots
    }

    constructor (players: seq<Slot>, localPlayerId: Option<nat>, gameMap: GameMap?)
      ensures Valid() && numSlots == |players|
      ensures this.players == players && this.localPlayerId == localPlayerId && this.gameMap == gameMap
      ensures listener == null
    {
      numSlots := |players|;
      this.players := players;
      this.localPlayerId := localPlayerId;
      this.gameMap := gameMap;
      listener := null;
    }

    /** `GetLocalPlayer()`: the player in the local slot, if there is one. */
    function LocalPlayer(): Option<PlayerState>
      reads this
    {
      if localPlayerId.Some? && localPlayerId.value < |players| then players[localPlayerId.value] else None
    }

    method SetListener(l: Client?)
      modifies this`listener
      ensures listener == l
    {
      listener := l;
    }
  }

  /** The renderer, as far as the client's map binding goes. */
  class Renderer {
    var gameMap: GameMap?

    constructor ()
      ensures gameMap == null
    {
      gameMap := null;
    }

    method SetGameMap(m: GameMap?)
      modifies this`gameMap
      ensures gameMap == m
    {
      gameMap := m;
    }
  }

  /** The audio device: its map binding and the local (non-positional) sounds it was asked to play. */
  class AudioDevice {
    var gameMap: GameMap?
    var localPlays: seq<string>

    constructor ()
      ensures gameMap == null && localPlays == []
    {
      gameMap := null;
      localPlays := [];
    }

    method SetGameMap(m: GameMap?)
      modifies this`gameMap
      ensures gameMap == m
    {
      gameMap := m;
    }

    method PlayLocal(sound: string)
      modifies this`localPlays
      ensures localPlays == old(localPlays) + [sound]
    {
      localPlays := localPlays + [sound];
    }
  }

  /** The network client: its status, the poll budgets it was given, and the requests it sent. */
  class NetClient {
    var status: NetStatus
    var target: string
    var waits: seq<int>
    var sent: seq<NetIntent>
    var disconnected: bool

    constructor ()
      ensures status == NotConnected && target == "" && waits == [] && sent == [] && !disconnected
    {
      status := NotConnected;
      target := "";
      waits := [];
      sent := [];
      disconnected := false;
    }

    /** Starts connecting; the status it reaches is decided by the transport. */
    method Connect(host: string, statusAfter: NetStatus)
      modifies this`target, this`status
      ensures target == host && status == statusAfter
    {
      target := host;
      status := statusAfter;
    }

    /** `DoEvents(wait)`: processes packets; the transport decides whether it throws and the status after. */
    method DoEvents(wait: int, poll: PollOutcome) returns (threw: bool, what: string)
      modifies this`status, this`waits
      ensures waits == old(waits) + [wait] && status == poll.statusAfter
      ensures threw == poll.PollFailed? && (threw ==> what == poll.what)
    {
      waits := waits + [wait];
      status := poll.statusAfter;
      threw := poll.PollFailed?;
      what := if poll.PollFailed? then poll.what else "";
    }

    method Send(intent: NetIntent)
      modifies this`sent
      ensures sent == old(sent) + [intent]
    {
      sent := sent + [intent];
    }

    method Disconnect()
      modifies this`disconnected
      ensures disconnected
    {
      disconnected := true;
    }
  }

  /** The client-side view object of one player slot; invalidated rather than destroyed when its world goes. */
  class ClientPlayer {
    const slot: nat
    var valid: bool

    constructor (slot: nat)
      ensures this.slot == slot && valid
    {
      this.slot := slot;
      valid := true;
    }

    method Invalidate()
      modifies this`valid
      ensures !valid
    {
      valid := false;
    }
  }

  /** The `cg_*` settings the core reads (all default to on). */
  datatype Settings = Settings(chatBeep: bool, serverAlert: bool, skipDeadPlayersWhenDead: bool)

  /** Calls into collaborators the model keeps opaque, in the order they happen. */
  datatype Effect =
    | CloseUI | RemoveAllCorpses | RemoveAllLocalEntities | ClearHurtRing | LeaveLimboWindow
    | DrawStartupScreen | RegisterAssets | MumbleLink(context: string, identity: string)
    | UpdateOverlays | UpdateWorld | LimboFog | UpdateChatWindows | Respatialize
    | DrawScene | Draw2D | ScriptedUIFrame | PresentFrame
    | DrawDisconnectScreen | CloseNetLog | NetDisconnect | ClientDestroyed

  /** A line in the chat window: a server message, or a player's message shown in team colour. */
  datatype ChatEntry =
    | ServerLine(text: string)
    | PlayerLine(global: bool, name: string, team: int, text: string)

  datatype ChatColor = White | TeamColor(team: int)

  /** A line recorded in the scripted UI's chat log. */
  datatype ChatLogEntry = ChatLogEntry(text: string, color: ChatColor)

  /** What the outside world decides during one RunFrame. */
  datatype FrameEnv = FrameEnv(
    clock: LocalTime,         // local time read by DoInit for the net-log name
    connectStatus: NetStatus, // status right after Connect in DoInit
    logOpens: bool,           // whether the net-log file could be opened
    poll: PollOutcome,        // what DoEvents did
    uiWantsClose: bool)       // the scripted UI's close request after its frame

  const WorldLoadedLine: string := "------ World Loaded ------"
  const WorldUnloadedLine: string := "------ World Unloaded ------"
  const NoFreeFileName: string := "No free file name"

  function DisconnectLine(what: string): string {
    "Disconnected because of error:\n" + what
  }

  /** The opaque steps of a frame that runs to its end. */
  function FrameEffects(worldBound: bool): seq<Effect> {
    [UpdateOverlays, if worldBound then UpdateWorld else LimboFog, UpdateChatWindows,
     Respatialize, DrawScene, Draw2D, ScriptedUIFrame, PresentFrame]
  }

  /** `cg_playerName` is cut to its first 15 characters. */
  function TruncatedName(name: string): (r: string)
    ensures |r| <= 15 && r <= name
    ensures |name| <= 15 ==> r == name
    ensures |name| > 15 ==> r == name[..15]
  {
    if |name| <= 15 then name else name[..15]
  }

  /** A possibly null world as a set of worlds, for frames. */
  ghost function AsSet(w: World?): set<World> {
    if w == null then {} else {w}
  }

  class Client {
    const renderer: Renderer
    const audioDevice: AudioDevice
    const hostname: string     // the server address as `ToString(false)` renders it
    const playerName: string
    var settings: Settings

    var net: NetClient?
    var netLogFile: Option<string>   // the open net-log file, if any
    var netLog: seq<string>          // every NetLog entry, in order
    var effects: seq<Effect>

    var world: World?
    var gameMap: GameMap?
    var clientPlayers: seq<ClientPlayer?>

    var chatWindow: seq<ChatEntry>
    var centerMessages: seq<string>
    var chatLog: seq<ChatLogEntry>

    var frameToRendererInit: int
    var time: real
    var timeSinceInit: real
    var hasDelayedReload: bool
    var readyToClose: bool

    var scoreboardVisible: bool
    var flashlightOn: bool
    var lastHealth: int
    var lastHurtTime: real
    var worldSubFrame: real
    var worldSetTime: real
    var lastKills: int

    var followingPlayerId: int
    var nextScreenShotIndex: int
    var nextMapShotIndex: int

    var alertType: AlertType
    var alertContents: string
    var alertAppearTime: real
    var alertDisappearTime: real

    /**
     * The world is either fully bound (listener registered, map handed to the renderer
     * and the audio device, one view slot per player slot) or fully unbound.
     */
    ghost predicate Bound()
      reads this, renderer, audioDevice, world
    {
      if world == null then
        gameMap == null && renderer.gameMap == null && audioDevice.gameMap == null && clientPlayers == []
      else
        && world.listener == this
        && gameMap == world.gameMap
        && renderer.gameMap == gameMap
        && audioDevice.gameMap == gameMap
        && |clientPlayers| == world.numSlots
    }

    ghost predicate Valid()
      reads this, renderer, audioDevice, world
    {
      && 0 <= frameToRendererInit <= WarmUpFrames
      && (net != null <==> frameToRendererInit == 0)
      && 0 <= nextScreenShotIndex < ShotSlots
      && (world != null ==> world.Valid())
      && Bound()
    }

    /** The per-slot view objects currently held. */
    ghost function Proxies(): set<ClientPlayer>
      reads this
    {
      set p: ClientPlayer | p in clientPlayers
    }

    constructor (r: Renderer, audioDev: AudioDevice, host: string, cgPlayerName: string, s: Settings)
      requires audioDev.gameMap == null
      modifies r
      ensures Valid()
      ensures renderer == r && audioDevice == audioDev && hostname == host && settings == s
      ensures playerName == TruncatedName(cgPlayerName)
      ensures world == null && net == null && netLogFile == None && netLog == [] && effects == []
      ensures frameToRendererInit == WarmUpFrames && time == 0.0 && timeSinceInit == 0.0
      ensures !hasDelayedReload && !readyToClose && !scoreboardVisible && !flashlightOn
      ensures worldSubFrame == 0.0 && lastKills == 0
      ensures nextScreenShotIndex == 0 && nextMapShotIndex == 0 && alertDisappearTime == -10000.0
    {
      renderer := r;
      audioDevice := audioDev;
      hostname := host;
      playerName := TruncatedName(cgPlayerName);
      settings := s;
      net := null;
      netLogFile := None;
      netLog := [];
      effects := [];
      world := null;
      gameMap := null;
      clientPlayers := [];
      chatWindow := [];
      centerMessages := [];
      chatLog := [];
      frameToRendererInit := WarmUpFrames;
      time := 0.0;
      timeSinceInit := 0.0;
      hasDelayedReload := false;
      readyToClose := false;
      scoreboardVisible := false;
      flashlightOn := false;
      lastHealth := 0;
      lastHurtTime := 0.0;
      worldSubFrame := 0.0;
      worldSetTime := 0.0;
      lastKills := 0;
      followingPlayerId := 0;
      nextScreenShotIndex := 0;
      nextMapShotIndex := 0;
      alertType := Notice;
      alertContents := "";
      alertAppearTime := 0.0;
      alertDisappearTime := -10000.0;
      new;
      r.SetGameMap(null);
    }

    /** Marks every held view object stale; the table itself is left for the caller to clear. */
    method InvalidateProxies()
      modifies Proxies()
      ensures forall p :: p in Proxies() ==> !p.valid
    {
      var i := 0;
      while i < |clientPlayers|
        invariant 0 <= i <= |clientPlayers|
        invariant forall j :: 0 <= j < i && clientPlayers[j] != null ==> !clientPlayers[j].valid
      {
        if clientPlayers[i] != null {
          clientPlayers[i].Invalidate();
        }
        i := i + 1;
      }
    }

    /** Builds one view object per slot of `w`: a fresh, valid one for an occupied slot, null for an empty one. */
    static method MakeProxies(w: World) returns (proxies: seq<ClientPlayer?>)
      requires w.Valid()
      ensures |proxies| == w.numSlots
      ensures forall i :: 0 <= i < |proxies| ==>
        && (proxies[i] != null <==> w.players[i].Some?)
        && (proxies[i] != null ==> fresh(proxies[i]) && proxies[i].valid && proxies[i].slot == i)
    {
      proxies := [];
      var i := 0;
      while i < w.numSlots
        invariant 0 <= i <= w.numSlots && |proxies| == i
        invariant forall j :: 0 <= j < i ==>
          && (proxies[j] != null <==> w.players[j].Some?)
          && (proxies[j] != null ==> fresh(proxies[j]) && proxies[j].valid && proxies[j].slot == j)
      {
        if w.players[i].Some? {
          var cp := new ClientPlayer(i);
          proxies := proxies + [cp];
        } else {
          proxies := proxies + [null];
        }
        i := i + 1;
      }
    }

    /** The old world, if any, loses its listener; renderer and audio drop its map. */
    method ReleaseWorld()
      requires Valid()
      modifies this`world, this`gameMap, this`clientPlayers, renderer`gameMap, audioDevice`gameMap
      modifies WorldSet()`listener, Proxies()
      ensures world == null && gameMap == null && clientPlayers == []
      ensures renderer.gameMap == null && audioDevice.gameMap == null
      ensures old(world) != null ==> old(world).listener == null
      ensures old(world) != null ==> unchanged(old(world)`players, old(world)`localPlayerId)
      ensures forall p :: p in old(Proxies()) ==> !p.valid
    {
      InvalidateProxies();
      clientPlayers := [];
      if world != null {
        world.SetListener(null);
        renderer.SetGameMap(null);
        audioDevice.SetGameMap(null);
        world := null;
        gameMap := null;
      }
    }

    /** The bound world as a set, for frames. */
    ghost function WorldSet(): set<World>
      reads this
    {
      AsSet(world)
    }

    /** The network client as a set, for frames. */
    ghost function NetSet(): set<NetClient>
      reads this
    {
      if net == null then {} else {net}
    }

    /** Swaps the bound world for `w` (which may be null), rewiring everything that depends on it. */
    method SetWorld(w: World?)
      requires Valid()
      requires w != null ==> w.Valid()
      modifies this`world, this`gameMap, this`clientPlayers, this`netLog, this`effects
      modifies this`scoreboardVisible, this`flashlightOn, this`lastHealth, this`lastHurtTime
      modifies this`worldSubFrame, this`worldSetTime
      modifies renderer`gameMap, audioDevice`gameMap, WorldSet()`listener, AsSet(w)`listener, Proxies()
      ensures Valid()
      ensures old(world) == w ==> unchanged(this) && unchanged(renderer, audioDevice) && unchanged(Proxies())
      ensures old(world) != w ==> world == w
      ensures w != null ==> w.players == old(w.players) && w.localPlayerId == old(w.localPlayerId)
      ensures old(world) != null ==>
        old(world).players == old(world.players) && old(world).localPlayerId == old(world.localPlayerId)
      ensures old(world) != w ==> forall p :: p in old(Proxies()) ==> !p.valid
      ensures old(world) != w && old(world) != null ==> old(world).listener == null
      ensures old(world) != w && w != null ==>
        forall i :: 0 <= i < |clientPlayers| ==>
          && (clientPlayers[i] != null <==> w.players[i].Some?)
          && (clientPlayers[i] != null ==> fresh(clientPlayers[i]) && clientPlayers[i].valid && clientPlayers[i].slot == i)
      ensures old(world) != w ==> netLog == old(netLog) + [if w != null then WorldLoadedLine else WorldUnloadedLine]
      ensures old(world) != w ==>
        effects == old(effects) + [CloseUI, RemoveAllCorpses, RemoveAllLocalEntities, ClearHurtRing]
                   + (if w == null then [LeaveLimboWindow] else [])
      ensures old(world) != w ==>
        && !scoreboardVisible && !flashlightOn && lastHealth == 0 && lastHurtTime == -100.0
        && worldSubFrame == 0.0 && worldSetTime == time
    {
      if world == w {
        return;
      }
      SwapWorld(w);
    }

    /** SetWorld's work when `w` differs from the bound world. */
    method SwapWorld(w: World?)
      requires Valid() && world != w
      requires w != null ==> w.Valid()
      modifies this`world, this`gameMap, this`clientPlayers, this`netLog, this`effects
      modifies this`scoreboardVisible, this`flashlightOn, this`lastHealth, this`lastHurtTime
      modifies this`worldSubFrame, this`worldSetTime
      modifies renderer`gameMap, audioDevice`gameMap, WorldSet()`listener, AsSet(w)`listener, Proxies()
      ensures Valid() && world == w
      ensures forall p :: p in old(Proxies()) ==> !p.valid
      ensures old(world) != null ==> old(world).listener == null
      ensures w != null ==>
        forall i :: 0 <= i < |clientPlayers| ==>
          && (clientPlayers[i] != null <==> w.players[i].Some?)
          && (clientPlayers[i] != null ==> fresh(clientPlayers[i]) && clientPlayers[i].valid && clientPlayers[i].slot == i)
      ensures netLog == old(netLog) + [if w != null then WorldLoadedLine else WorldUnloadedLine]
      ensures effects == old(effects) + [CloseUI, RemoveAllCorpses, RemoveAllLocalEntities, ClearHurtRing]
                         + (if w == null then [LeaveLimboWindow] else [])
      ensures !scoreboardVisible && !flashlightOn && lastHealth == 0 && lastHurtTime == -100.0
      ensures worldSubFrame == 0.0 && worldSetTime == time
    {
      ClearWorldUI();
      ReleaseWorld();
      AttachWorld(w);
    }

    /** From the unbound state: binds `w` (or logs the unload), restarts the world clock, and leaves limbo for null. */
    method AttachWorld(w: World?)
      requires world == null && gameMap == null && clientPlayers == []
      requires renderer.gameMap == null && audioDevice.gameMap == null
      requires w != null ==> w.Valid()
      modifies this`world, this`gameMap, this`clientPlayers, this`netLog, this`effects
      modifies this`worldSubFrame, this`worldSetTime
      modifies renderer`gameMap, audioDevice`gameMap, AsSet(w)`listener
      ensures world == w && Bound()
      ensures w != null ==>
        forall i :: 0 <= i < |clientPlayers| ==>
          && (clientPlayers[i] != null <==> w.players[i].Some?)
          && (clientPlayers[i] != null ==> fresh(clientPlayers[i]) && clientPlayers[i].valid && clientPlayers[i].slot == i)
      ensures netLog == old(netLog) + [if w != null then WorldLoadedLine else WorldUnloadedLine]
      ensures effects == old(effects) + (if w == null then [LeaveLimboWindow] else [])
      ensures worldSubFrame == 0.0 && worldSetTime == time
    {
      world := w;
      if world != null {
        BindWorld(w);
      } else {
        netLog := netLog + [WorldUnloadedLine];
      }

      worldSubFrame := 0.0;
      worldSetTime := time;

      if world == null {
        effects := effects + [LeaveLimboWindow];
      }
    }

    /** Closes the world's UI and forgets the per-world hurt, scoreboard and flashlight state. */
    method ClearWorldUI()
      modifies this`effects, this`scoreboardVisible, this`flashlightOn, this`lastHealth, this`lastHurtTime
      ensures effects == old(effects) + [CloseUI, RemoveAllCorpses, RemoveAllLocalEntities, ClearHurtRing]
      ensures !scoreboardVisible && !flashlightOn && lastHealth == 0 && lastHurtTime == -100.0
    {
      effects := effects + [CloseUI, RemoveAllCorpses, RemoveAllLocalEntities];
      lastHealth := 0;
      lastHurtTime := -100.0;
      effects := effects + [ClearHurtRing];
      scoreboardVisible := false;
      flashlightOn := false;
    }

    /** Wires `w` in: view objects, listener registration, renderer and audio map, and the log line. */
    method BindWorld(w: World)
      requires w.Valid() && world == w && clientPlayers == []
      modifies this`gameMap, this`clientPlayers, this`netLog, renderer`gameMap, audioDevice`gameMap, w`listener
      ensures |clientPlayers| == w.numSlots
      ensures forall i :: 0 <= i < |clientPlayers| ==>
        && (clientPlayers[i] != null <==> w.players[i].Some?)
        && (clientPlayers[i] != null ==> fresh(clientPlayers[i]) && clientPlayers[i].valid && clientPlayers[i].slot == i)
      ensures w.listener == this && gameMap == w.gameMap
      ensures renderer.gameMap == gameMap && audioDevice.gameMap == gameMap
      ensures netLog == old(netLog) + [WorldLoadedLine]
    {
      var proxies := MakeProxies(w);
      clientPlayers := proxies;
      w.SetListener(this);
      gameMap := w.gameMap;
      renderer.SetGameMap(gameMap);
      audioDevice.SetGameMap(gameMap);
      netLog := netLog + [WorldLoadedLine];
    }

    /**
     * Heavy initialisation: assets and the presence link (opaque), a new network client
     * connecting to the host, and the net-log file, opened under a timestamped name.
     */
    method DoInit(clock: LocalTime, connectStatus: NetStatus, logOpens: bool)
      modifies this`net, this`netLogFile, this`effects
      ensures net != null && fresh(net)
      ensures net.target == hostname && net.status == connectStatus
      ensures net.waits == [] && net.sent == [] && !net.disconnected
      ensures netLogFile == if logOpens then Some(NetLogPath(hostname, clock)) else old(netLogFile)
      ensures effects == old(effects) + [RegisterAssets, MumbleLink(hostname, playerName)]
    {
      effects := effects + [RegisterAssets, MumbleLink(hostname, playerName)];
      var nc := new NetClient();
      nc.Connect(hostname, connectStatus);
      net := nc;
      var path := BuildNetLogPath(hostname, clock);
      if logOpens {
        netLogFile := Some(path);
      }
    }

    /** One frame: the warm-up countdown, the network poll and its failure handling, then the frame proper. */
    method RunFrame(dt: real, env: FrameEnv) returns (outcome: FrameOutcome)
      requires Valid()
      modifies this`frameToRendererInit, this`timeSinceInit, this`time, this`hasDelayedReload, this`readyToClose
      modifies this`net, this`netLogFile, this`netLog, this`effects
      modifies if net == null then {} else {net}
      ensures Valid()
      ensures var (s, o) := Tick(FrameState(old(frameToRendererInit), old(time), old(timeSinceInit), old(hasDelayedReload)), dt, env.poll);
        && outcome == o
        && frameToRendererInit == s.counter && time == s.time
        && timeSinceInit == s.timeSinceInit && hasDelayedReload == s.delayedReload
      ensures old(frameToRendererInit) > 1 ==>
        && effects == old(effects) + [DrawStartupScreen]
        && net == old(net) && netLogFile == old(netLogFile)
      ensures old(frameToRendererInit) == 1 ==>
        && fresh(net) && net.target == hostname && net.sent == [] && !net.disconnected
        && net.waits == [PollWait(env.connectStatus)]
        && netLogFile == (if env.logOpens then Some(NetLogPath(hostname, env.clock)) else old(netLogFile))
        && effects == old(effects) + [DrawStartupScreen, RegisterAssets, MumbleLink(hostname, playerName)]
                      + (if outcome == Completed then FrameEffects(world != null) else [])
      ensures old(frameToRendererInit) == 0 ==>
        && net == old(net) && netLogFile == old(netLogFile)
        && net.waits == old(net.waits) + [PollWait(old(net.status))]
        && net.sent == old(net.sent) && net.target == old(net.target) && net.disconnected == old(net.disconnected)
        && effects == old(effects) + (if outcome == Completed then FrameEffects(world != null) else [])
      ensures old(frameToRendererInit) <= 1 ==> net.status == env.poll.statusAfter
      ensures outcome.Disconnected? ==> netLog == old(netLog) + [DisconnectLine(outcome.what)]
      ensures !outcome.Disconnected? ==> netLog == old(netLog)
      ensures readyToClose == (old(readyToClose) || (outcome == Completed && env.uiWantsClose))
    {
      if frameToRendererInit > 1 {
        var _ := WarmUp(env);
        return WarmingUp;
      } else if frameToRendererInit == 1 {
        outcome := InitFrame(dt, env);
      } else {
        outcome := PollAndDraw(dt, env);
      }
    }

    /** The last startup-screen frame: DoInit runs, then the same frame polls and draws. */
    method InitFrame(dt: real, env: FrameEnv) returns (outcome: FrameOutcome)
      requires Valid() && frameToRendererInit == 1
      modifies this`frameToRendererInit, this`timeSinceInit, this`time, this`hasDelayedReload, this`readyToClose
      modifies this`net, this`netLogFile, this`netLog, this`effects
      ensures Valid()
      ensures (FrameState(frameToRendererInit, time, timeSinceInit, hasDelayedReload), outcome)
        == Tick(FrameState(1, old(time), old(timeSinceInit), old(hasDelayedReload)), dt, env.poll)
      ensures fresh(net) && net.target == hostname && net.sent == [] && !net.disconnected
      ensures net.waits == [PollWait(env.connectStatus)] && net.status == env.poll.statusAfter
      ensures netLogFile == (if env.logOpens then Some(NetLogPath(hostname, env.clock)) else old(netLogFile))
      ensures effects == old(effects) + [DrawStartupScreen, RegisterAssets, MumbleLink(hostname, playerName)]
                         + (if outcome == Completed then FrameEffects(world != null) else [])
      ensures outcome.Disconnected? ==> netLog == old(netLog) + [DisconnectLine(outcome.what)]
      ensures !outcome.Disconnected? ==> netLog == old(netLog)
      ensures readyToClose == (old(readyToClose) || (outcome == Completed && env.uiWantsClose))
    {
      var _ := WarmUp(env);
      outcome := PollAndDraw(dt, env);
    }

    /** The startup-screen part of a frame: counts down and, on reaching zero, runs DoInit. */
    method WarmUp(env: FrameEnv) returns (initNow: bool)
      requires Valid() && frameToRendererInit > 0
      modifies this`frameToRendererInit, this`effects, this`net, this`netLogFile
      ensures Valid()
      ensures frameToRendererInit == old(frameToRendererInit) - 1
      ensures initNow <==> frameToRendererInit == 0
      ensures effects == old(effects) + [DrawStartupScreen] + (if initNow then [RegisterAssets, MumbleLink(hostname, playerName)] else [])
      ensures initNow ==>
        && fresh(net) && net.target == hostname && net.status == env.connectStatus
        && net.waits == [] && net.sent == [] && !net.disconnected
        && netLogFile == (if env.logOpens then Some(NetLogPath(hostname, env.clock)) else old(netLogFile))
      ensures !initNow ==> net == old(net) && netLogFile == old(netLogFile)
    {
      effects := effects + [DrawStartupScreen];
      frameToRendererInit := frameToRendererInit - 1;
      initNow := frameToRendererInit == 0;
      if initNow {
        DoInit(env.clock, env.connectStatus, env.logOpens);
      }
    }

    /** The part of a frame after warm-up: the network poll, then the frame proper unless the poll error is fatal. */
    method PollAndDraw(dt: real, env: FrameEnv) returns (outcome: FrameOutcome)
      requires Valid() && net != null
      modifies this`timeSinceInit, this`time, this`hasDelayedReload, this`readyToClose
      modifies this`netLog, this`effects, net`status, net`waits
      ensures Valid()
      ensures (FrameState(0, time, timeSinceInit, hasDelayedReload), outcome)
        == Tick(FrameState(0, old(time), old(timeSinceInit), old(hasDelayedReload)), dt, env.poll)
      ensures net.waits == old(net.waits) + [PollWait(old(net.status))] && net.status == env.poll.statusAfter
      ensures effects == old(effects) + (if outcome == Completed then FrameEffects(world != null) else [])
      ensures outcome.Disconnected? ==> netLog == old(netLog) + [DisconnectLine(outcome.what)]
      ensures !outcome.Disconnected? ==> netLog == old(netLog)
      ensures readyToClose == (old(readyToClose) || (outcome == Completed && env.uiWantsClose))
    {
      timeSinceInit := timeSinceInit + InitStep(dt);
      var fatal, what := PollNetwork(env.poll);
      if fatal {
        netLog := netLog + [DisconnectLine(what)];
        return Disconnected(what);
      }
      DrawFrame(dt, env.uiWantsClose);
      return Completed;
    }

    /**
     * Polls the network, waiting 0 ms when connected and 10 ms otherwise; a failure is
     * fatal (rethrown) only when the client is no longer connected, otherwise it is only logged.
     */
    method PollNetwork(poll: PollOutcome) returns (fatal: bool, what: string)
      requires net != null
      modifies net`status, net`waits
      ensures net.waits == old(net.waits) + [PollWait(old(net.status))] && net.status == poll.statusAfter
      ensures fatal == PollIsFatal(poll) && (fatal ==> what == poll.what)
    {
      var wait := if net.status == Connected then 0 else 10;
      var threw;
      threw, what := net.DoEvents(wait, poll);
      fatal := false;
      if threw {
        if net.status == NotConnected {
          fatal := true;
        }
        // any other failure is only reported to the process log
      }
    }

    /** The frame proper: overlays, world or limbo, chat, sound, scene, 2D, scripted UI, then present. */
    method DrawFrame(dt: real, uiWantsClose: bool)
      modifies this`effects, this`readyToClose, this`hasDelayedReload, this`time
      ensures effects == old(effects) + FrameEffects(world != null)
      ensures readyToClose == (old(readyToClose) || uiWantsClose)
      ensures !hasDelayedReload && time == old(time) + dt
    {
      effects := effects + [UpdateOverlays];
      if world != null {
        effects := effects + [UpdateWorld];
      } else {
        effects := effects + [LimboFog];
      }
      effects := effects + [UpdateChatWindows, Respatialize, DrawScene, Draw2D, ScriptedUIFrame];
      if uiWantsClose {
        readyToClose := true;
      }
      effects := effects + [PresentFrame];
      hasDelayedReload := false;
      time := time + dt;
    }

    /** Asks the server for the chosen team and weapon: a join, or team and weapon changes. */
    method Spawn(teamId: int, weaponId: int)
      requires Valid() && world != null && net != null
      modifies net`sent
      ensures Valid()
      ensures net.sent == old(net.sent) + SpawnIntents(teamId, weaponId, world.LocalPlayer(), playerName, lastKills)
    {
      var weap := weaponId;
      var team := teamId;
      if team == 2 {
        team := SpectatorTeam;
      }
      var local := world.LocalPlayer();
      if local.None? || local.value.team >= 2 {
        if team == SpectatorTeam {
          weap := RifleWeapon;
        }
        net.Send(Join(team, weap, playerName, lastKills));
      } else {
        if local.value.team != team {
          net.Send(TeamChange(team));
        }
        if team != SpectatorTeam && local.value.weapon != weap {
          net.Send(WeaponChange(weap));
        }
      }
    }

    /** Replaces the alert: contents, severity and display interval, and the alert sound for loud warnings and errors. */
    method ShowAlertTimed(contents: string, kind: AlertType, timeout: real, quiet: bool)
      requires Valid()
      modifies this`alertType, this`alertContents, this`alertAppearTime, this`alertDisappearTime, audioDevice`localPlays
      ensures Valid()
      ensures alertType == kind && alertContents == contents
      ensures alertAppearTime == time && alertDisappearTime == time + timeout
      ensures audioDevice.localPlays == old(audioDevice.localPlays) + (if AlertSoundPlays(kind, quiet) then [AlertSound] else [])
    {
      alertType := kind;
      alertContents := contents;
      alertDisappearTime := time + timeout;
      alertAppearTime := time;
      if kind != Notice && !quiet {
        audioDevice.PlayLocal(AlertSound);
      }
    }

    /** The two-argument ShowAlert: the severity's default timeout, not quiet. */
    method ShowAlert(contents: string, kind: AlertType)
      requires Valid()
      modifies this`alertType, this`alertContents, this`alertAppearTime, this`alertDisappearTime, audioDevice`localPlays
      ensures Valid()
      ensures alertType == kind && alertContents == contents
      ensures alertAppearTime == time && alertDisappearTime == time + DefaultAlertTimeout(kind)
      ensures audioDevice.localPlays == old(audioDevice.localPlays) + (if kind != Notice then [AlertSound] else [])
    {
      var timeout: real;
      match kind {
        case Notice => timeout := 2.5;
        case Warning => timeout := 3.0;
        case Error => timeout := 3.0;
      }
      ShowAlertTimed(contents, kind, timeout, false);
    }

    /**
     * A player's chat message: a team-coloured chat-window line, a chat-log line, a net-log
     * line tagged with the team name, and the chat beep unless muted or switched off.
     * `teamName` is the name the world gives the sender's team; `muted` is IsMuted().
     */
    method PlayerSentChatMessage(p: PlayerState, teamName: string, global: bool, msg: string, muted: bool)
      requires Valid()
      modifies this`chatWindow, this`chatLog, this`netLog, audioDevice`localPlays
      ensures Valid()
      ensures chatWindow == old(chatWindow) + [PlayerLine(global, p.name, p.team, msg)]
      ensures chatLog == old(chatLog) + [ChatLogEntry(ChatLogLine(global, p.name, msg), if p.team < 2 then TeamColor(p.team) else White)]
      ensures netLog == old(netLog) + [ChatNetLogLine(global, p.name, teamName, msg)]
      ensures audioDevice.localPlays == old(audioDevice.localPlays) + (if !muted && settings.chatBeep then [ChatSound] else [])
    {
      chatWindow := chatWindow + [PlayerLine(global, p.name, p.team, msg)];
      var s := (if global then "[Global] " else "") + p.name + ": " + msg;
      var col := if p.team < 2 then TeamColor(p.team) else White;
      chatLog := chatLog + [ChatLogEntry(s, col)];
      if global {
        netLog := netLog + ["[Global] " + p.name + " (" + teamName + "): " + msg];
      } else {
        netLog := netLog + ["[Team] " + p.name + " (" + teamName + "): " + msg];
      }
      if !muted && settings.chatBeep {
        audioDevice.PlayLocal(ChatSound);
      }
    }

    /**
     * A server message: always net-logged and recorded in the chat log, then shown in
     * exactly one place: as an alert, in the center view, or in the chat window.
     */
    method ServerSentMessage(msg: string)
      requires Valid()
      modifies this`netLog, this`chatLog, this`chatWindow, this`centerMessages
      modifies this`alertType, this`alertContents, this`alertAppearTime, this`alertDisappearTime, audioDevice`localPlays
      ensures Valid()
      ensures netLog == old(netLog) + [msg]
      ensures chatLog == old(chatLog) + [ChatLogEntry(msg, White)]
      ensures var d := RouteServerMessage(msg, settings.serverAlert);
        && chatWindow == (if d.ChatDest? then old(chatWindow) + [ServerLine(d.text)] else old(chatWindow))
        && centerMessages == (if d.CenterDest? then old(centerMessages) + [d.text] else old(centerMessages))
        && (d.AlertDest? ==>
              && alertType == d.kind && alertContents == d.text
              && alertAppearTime == time && alertDisappearTime == time + DefaultAlertTimeout(d.kind)
              && audioDevice.localPlays == old(audioDevice.localPlays) + (if d.kind != Notice then [AlertSound] else []))
        && (!d.AlertDest? ==>
              && alertType == old(alertType) && alertContents == old(alertContents)
              && alertAppearTime == old(alertAppearTime) && alertDisappearTime == old(alertDisappearTime)
              && audioDevice.localPlays == old(audioDevice.localPlays))
    {
      netLog := netLog + [msg];
      chatLog := chatLog + [ChatLogEntry(msg, White)];

      if settings.serverAlert {
        if |msg| >= 3 && msg[..3] == "N% " {
          ShowAlert(msg[3..], Notice);
          return;
        }
        if |msg| >= 3 && msg[..3] == "!% " {
          ShowAlert(msg[3..], Error);
          return;
        }
        if |msg| >= 3 && msg[..3] == "%% " {
          ShowAlert(msg[3..], Warning);
          return;
        }
        if |msg| >= 3 && msg[..3] == "C% " {
          centerMessages := centerMessages + [msg[3..]];
          return;
        }
      }

      chatWindow := chatWindow + [ServerLine(msg)];
    }

    /** The local player's team, or 2 (no team) when there is no local player. */
    function LocalTeam(): int
      reads this, world
      requires world != null
    {
      var local := world.LocalPlayer();
      if local.Some? then local.value.team else 2
    }

    /**
     * Moves the followed player to the next eligible slot in the chosen direction; after a
     * full turn without one, the followed player stays as it was.
     */
    method FollowNextPlayer(reverse: bool)
      requires Valid() && world != null
      requires 0 <= followingPlayerId < world.numSlots
      modifies this`followingPlayerId
      ensures Valid()
      ensures followingPlayerId ==
        NextTarget(world.players, old(followingPlayerId), reverse, LocalTeam(), settings.skipDeadPlayersWhenDead)
    {
      var myTeam := 2;
      var local := world.LocalPlayer();
      if local.Some? {
        myTeam := local.value.team;
      }
      followingPlayerId := ScanNext(world.players, followingPlayerId, reverse, myTeam, settings.skipDeadPlayersWhenDead);
    }

    /** The do-while of FollowNextPlayer over a snapshot of the player slots. */
    static method ScanNext(slots: seq<Slot>, start: int, reverse: bool, myTeam: int, skipDead: bool) returns (nextId: int)
      requires 0 <= start < |slots|
      ensures nextId == NextTarget(slots, start, reverse, myTeam, skipDead)
    {
      var n := |slots|;
      nextId := start;
      ghost var k := 0;
      while true
        invariant 0 <= k < n && nextId == Pos(start, k, n, reverse)
        invariant forall i :: 1 <= i <= k ==> !Eligible(slots[Pos(start, i, n, reverse)], myTeam, skipDead)
        decreases n - k
      {
        if reverse {
          nextId := nextId - 1;
        } else {
          nextId := nextId + 1;
        }
        if nextId >= n {
          nextId := 0;
        }
        if nextId < 0 {
          nextId := n - 1;
        }
        k := k + 1;

        var skip := Skipped(slots[nextId], myTeam, skipDead);
        if !skip {
          break;
        }
        if nextId == start {
          break;
        }
      }
      StopStepIsFirst(slots, start, reverse, myTeam, skipDead, k);
    }

    /** The loop body's tests, in the source's order: whether the scan passes over slot `p`. */
    static method Skipped(p: Slot, myTeam: int, skipDead: bool) returns (skip: bool)
      ensures skip == !Eligible(p, myTeam, skipDead)
    {
      skip := false;
      if p.None? {
        skip := true;
      } else if myTeam < 2 && p.value.team != myTeam {
        skip := true;
      } else if myTeam < 2 && skipDead && !p.value.alive {
        skip := true;  // dead players are skipped whenever the local player is on a team
      } else if !p.value.hasValidFront {
        skip := true;
      } else if p.value.team >= 2 {
        skip := true;  // spectators are never followed
      }
    }

    /** Whether the camera follows another player: the local player exists and is a spectator or dead. */
    predicate IsFollowing()
      reads this, world
      ensures IsFollowing() ==> world != null && world.LocalPlayer().Some?
      ensures world != null && world.LocalPlayer().Some? ==>
        (IsFollowing() <==> world.LocalPlayer().value.team >= 2 || !world.LocalPlayer().value.alive)
    {
      if world == null then false
      else if world.LocalPlayer().None? then false
      else if world.LocalPlayer().value.team >= 2 then true
      else !world.LocalPlayer().value.alive
    }

    /**
     * Picks a free `Mapshots/shotNNNN.vxl` name, scanning from the screenshot counter and
     * wrapping at 10000; `existing` is the set of files that already exist.
     */
    method MapShotPath(existing: set<string>) returns (r: Result<string>)
      requires Valid()
      modifies this`nextScreenShotIndex
      ensures Valid()
      ensures match FirstFreeShot(old(nextScreenShotIndex), existing)
        case Some(i) => r == Ok(ShotFileName(i)) && nextScreenShotIndex == i
        case None => r == Err(NoFreeFileName) && nextScreenShotIndex == old(nextScreenShotIndex)
    {
      ghost var start := nextScreenShotIndex;
      var i := 0;
      while i < 10000
        invariant 0 <= i <= ShotSlots
        invariant nextScreenShotIndex == ShotWrap(start, i)
        invariant FirstFreeShot(start, existing) == FreeShotFrom(start, existing, i)
      {
        var name := ShotFileName(nextScreenShotIndex);
        if name in existing {
          nextScreenShotIndex := nextScreenShotIndex + 1;
          if nextScreenShotIndex >= 10000 {
            nextScreenShotIndex := 0;
          }
        } else {
          return Ok(name);
        }
        i := i + 1;
      }
      return Err(NoFreeFileName);
    }

    /** The destructor's first half: the net log is closed, then the network client disconnected and dropped. */
    method CloseConnection()
      modifies this`effects, this`netLogFile, this`net, NetSet()`disconnected
      ensures effects == old(effects)
                         + (if old(netLogFile).Some? then [CloseNetLog] else [])
                         + (if old(net) != null then [NetDisconnect] else [])
      ensures old(net) != null ==> old(net).disconnected
      ensures net == null && netLogFile == None
    {
      if netLogFile.Some? {
        effects := effects + [CloseNetLog];
        netLogFile := None;
      }
      if net != null {
        net.Disconnect();
        effects := effects + [NetDisconnect];
        net := null;
      }
    }

    /**
     * The destructor: logs the disconnect, closes the net log, then disconnects the
     * network, and unbinds the renderer, the audio device and the view objects.
     */
    method Destroy()
      requires Valid()
      modifies this`netLog, this`effects, this`netLogFile, this`net, this`clientPlayers, this`world
      modifies renderer`gameMap, audioDevice`gameMap, Proxies()
      modifies NetSet()`disconnected
      ensures netLog == old(netLog) + ["Disconnecting"]
      ensures effects == old(effects) + [DrawDisconnectScreen]
                         + (if old(netLogFile).Some? then [CloseNetLog] else [])
                         + (if old(net) != null then [NetDisconnect] else [])
                         + [RemoveAllLocalEntities, RemoveAllCorpses, ClientDestroyed]
      ensures old(net) != null ==> old(net).disconnected
      ensures net == null && netLogFile == None && world == null && clientPlayers == []
      ensures renderer.gameMap == null && audioDevice.gameMap == null
      ensures forall p :: p in old(Proxies()) ==> !p.valid
    {
      netLog := netLog + ["Disconnecting"];
      effects := effects + [DrawDisconnectScreen];
      CloseConnection();
      effects := effects + [RemoveAllLocalEntities, RemoveAllCorpses];
      renderer.SetGameMap(null);
      audioDevice.SetGameMap(null);
      InvalidateProxies();
      clientPlayers := [];
      effects := effects + [ClientDestroyed];
      world := null;
    }
  }
}
