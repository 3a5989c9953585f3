/** The client-side game state store: one record of session, drawing, chat
    and preference fields, one action per way the application changes it,
    and the projection of the record that is persisted across reloads. */
module Store {
  import Chat
  import Strokes

  /** `T | null` */
  datatype Option<T> = None | Some(value: T)

  /** The signed-in player. */
  datatype User = User(id: string, username: string, email: string, avatar: string)

  /** The drawing tools a player can select. */
  datatype Tool = Brush | Eraser | Line | Rectangle | Square | Circle | Dotted

  /** The value of every field of the store at one moment. `G` is the game
      state, `S` a drawing stroke and `P` the payload of a chat message; the
      store never looks inside any of them. */
  datatype StoreState<G, S, P> = StoreState(
    user: Option<User>,
    gameState: Option<G>,
    strokes: seq<S>,
    messages: seq<Chat.ChatMessage<P>>,
    isConnected: bool,
    currentTool: Tool,
    brushSize: real,
    brushColor: string,
    showChat: bool,
    soundEnabled: bool)

  /** The part of the store written to persistent storage. */
  datatype Persisted = Persisted(
    user: Option<User>,
    soundEnabled: bool,
    currentTool: Tool,
    brushSize: real,
    brushColor: string)

  /** `partialize`: the fields that survive a reload. */
  function Partialize<G, S, P>(s: StoreState<G, S, P>): (p: Persisted)
    ensures p.user == s.user && p.soundEnabled == s.soundEnabled
    ensures p.currentTool == s.currentTool && p.brushSize == s.brushSize && p.brushColor == s.brushColor
  {
    Persisted(s.user, s.soundEnabled, s.currentTool, s.brushSize, s.brushColor)
  }

  /** Two states persist the same record exactly when they agree on the five
      persisted fields: game state, strokes, messages, the connection flag
      and chat visibility never reach storage. */
  lemma PartializeExactlyFive<G, S, P>(a: StoreState<G, S, P>, b: StoreState<G, S, P>)
    ensures Partialize(a) == Partialize(b) <==>
              && a.user == b.user
              && a.soundEnabled == b.soundEnabled
              && a.currentTool == b.currentTool
              && a.brushSize == b.brushSize
              && a.brushColor == b.brushColor
  {
  }

  /** The store. Its invariant is that the chat history never exceeds the
      retention window and never holds two messages with the same id. */
  class GameStore<G, S, P> {
    var user: Option<User>
    var gameState: Option<G>
    var strokes: seq<S>
    var messages: seq<Chat.ChatMessage<P>>
    var isConnected: bool
    var currentTool: Tool
    var brushSize: real
    var brushColor: string
    var showChat: bool
    var soundEnabled: bool

    function Snapshot(): StoreState<G, S, P>
      reads this
    {
      StoreState(user, gameState, strokes, messages, isConnected,
                 currentTool, brushSize, brushColor, showChat, soundEnabled)
    }

    ghost predicate Valid()
      reads this
    {
      |messages| <= Chat.MaxMessages && Chat.DistinctIds(messages)
    }

    /** The initial state of a fresh store. */
    constructor ()
      ensures Valid()
      ensures Snapshot() == StoreState(None, None, [], [], false, Brush, 5.0, "#ff0080", true, true)
      ensures Partialize(Snapshot()) == Persisted(None, true, Brush, 5.0, "#ff0080")
    {
      user := None;
      gameState := None;
      strokes := [];
      messages := [];
      isConnected := false;
      currentTool := Brush;
      brushSize := 5.0;
      brushColor := "#ff0080";
      showChat := true;
      soundEnabled := true;
    }

    method SetUser(u: Option<User>)
      requires Valid()
      modifies this
      ensures Valid()
      ensures Snapshot() == old(Snapshot()).(user := u)
    {
      user := u;
    }

    /** Clears the session fields together; the preferences stay. */
    method Logout()
      requires Valid()
      modifies this
      ensures Valid()
      ensures Snapshot() == old(Snapshot()).(user := None, gameState := None, strokes := [],
                                             messages := [], isConnected := false)
      ensures currentTool == old(currentTool) && brushSize == old(brushSize)
      ensures brushColor == old(brushColor) && showChat == old(showChat)
      ensures soundEnabled == old(soundEnabled)
      ensures Partialize(Snapshot()) == old(Partialize(Snapshot())).(user := None)
    {
      user := None;
      gameState := None;
      strokes := [];
      messages := [];
      isConnected := false;
    }

    method SetGameState(g: Option<G>)
      requires Valid()
      modifies this
      ensures Valid()
      ensures Snapshot() == old(Snapshot()).(gameState := g)
      ensures Partialize(Snapshot()) == old(Partialize(Snapshot()))
    {
      gameState := g;
    }

    method AddStroke(s: S)
      requires Valid()
      modifies this
      ensures Valid()
      ensures Snapshot() == old(Snapshot()).(strokes := Strokes.AddStroke(old(strokes), s))
      ensures strokes == old(strokes) + [s]
      ensures Partialize(Snapshot()) == old(Partialize(Snapshot()))
    {
      strokes := Strokes.AddStroke(strokes, s);
    }

    method ClearStrokes()
      requires Valid()
      modifies this
      ensures Valid()
      ensures Snapshot() == old(Snapshot()).(strokes := [])
      ensures Partialize(Snapshot()) == old(Partialize(Snapshot()))
    {
      strokes := [];
    }

    /** A message whose id is already held leaves the whole store as it was. */
    method AddMessage(m: Chat.ChatMessage<P>)
      requires Valid()
      modifies this
      ensures Valid()
      ensures Snapshot() == old(Snapshot()).(messages := Chat.AddMessage(old(messages), m))
      ensures Chat.HasId(old(messages), m.id) ==> Snapshot() == old(Snapshot())
      ensures Chat.HasId(messages, m.id)
      ensures Partialize(Snapshot()) == old(Partialize(Snapshot()))
    {
      Chat.AddMessageHoldsIdOnce(messages, m);
      messages := Chat.AddMessage(messages, m);
    }

    method ClearMessages()
      requires Valid()
      modifies this
      ensures Valid()
      ensures Snapshot() == old(Snapshot()).(messages := [])
      ensures Partialize(Snapshot()) == old(Partialize(Snapshot()))
    {
      messages := [];
    }

    method SetIsConnected(connected: bool)
      requires Valid()
      modifies this
      ensures Valid()
      ensures Snapshot() == old(Snapshot()).(isConnected := connected)
      ensures Partialize(Snapshot()) == old(Partialize(Snapshot()))
    {
      isConnected := connected;
    }

    method SetCurrentTool(tool: Tool)
      requires Valid()
      modifies this
      ensures Valid()
      ensures Snapshot() == old(Snapshot()).(currentTool := tool)
    {
      currentTool := tool;
    }

    method SetBrushSize(size: real)
      requires Valid()
      modifies this
      ensures Valid()
      ensures Snapshot() == old(Snapshot()).(brushSize := size)
    {
      brushSize := size;
    }

    method SetBrushColor(color: string)
      requires Valid()
      modifies this
      ensures Valid()
      ensures Snapshot() == old(Snapshot()).(brushColor := color)
    {
      brushColor := color;
    }

    method SetShowChat(show: bool)
      requires Valid()
      modifies this
      ensures Valid()
      ensures Snapshot() == old(Snapshot()).(showChat := show)
      ensures Partialize(Snapshot()) == old(Partialize(Snapshot()))
    {
      showChat := show;
    }

    method SetSoundEnabled(enabled: bool)
      requires Valid()
      modifies this
      ensures Valid()
      ensures Snapshot() == old(Snapshot()).(soundEnabled := enabled)
    {
      soundEnabled := enabled;
    }
  }
}
