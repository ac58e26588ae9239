# Verified model of the room portfolio's game and UI logic

This project models, in Dafny, the three small pieces of state logic in the 3D
developer-room portfolio:

- **The snake game** of the full-screen overlay (`SnakeGame`). The board is a
  20x20 grid. The snake is a body of cells listed head first. There is one food
  cell, a pending direction `(dx, dy)`, a running score and a terminal
  game-over flag. The class `Game` holds these fields. Its method `Tick` is one
  call of `drawGame` and its method `Key` is one call of `handleKeyPress`.
- **The loading screen** (`LoadingScreen`). It covers the status line chosen by
  thresholds on progress, the tip that rotates every three seconds, and the rule
  that hides the view once loading is over.
- **The chat terminal's bookkeeping** (`GeminiTerminal`). It covers the typed
  input, the message history and the loading flag, as `handleSend` updates
  them. The request to the model service is not modelled; its outcome is a
  parameter (`Some(text)` for a reply, `None` for a failure).

Files: `options.dfy` (the shared `Option` type), `snake.dfy`, `loading.dfy`,
`terminal.dfy`.

Behaviour kept as the code has it:

- Before any arrow key, `(dx, dy) = (0, 0)`. The next head is then the
  current head, the self-collision test matches it, and the first tick ends the
  game.
- The pre-move body is used for the self-collision test, so the cell the tail
  is about to leave still counts as occupied (`TailChaseEndsGame`).
- New food is drawn uniformly with no check against the body, so it can land on
  the snake (`FoodMayLandOnBody`).
- The anti-reversal guard compares against the pending direction, not the last
  move. Two keys pressed within one tick can therefore reverse the snake
  (`TwoKeysCanReverse`).
- A new send is not refused while a reply is pending: `BeginSend` ignores
  `loading`.
- The status line follows the loader's own `progress`. The bar and the hide
  rule follow `displayProgress`, which an effect copies over one render later
  (`FinishedLoadingHides`).

Randomness is a parameter. Each `Math.random()` draw is a real number `r` in
`[0, 1)`, and a food coordinate is `Floor(r * 20)`. The model uses exact
reals, with no floating-point rounding.

Two more points about the snake game:

- A collision does not reset the game. The effect re-runs with `gameOver`
  true, so every later tick returns at once, and the model treats `gameOver`
  as terminal.
- One key can only turn the snake at a right angle, but two keys pressed
  within one tick can reverse it (`TwoKeysCanReverse`).

The terminal's key field is rendered only while no key is set. A key is
therefore entered once and never replaced or cleared, and `EnterKey` requires
that no key is set yet. Because the field disappears after its first change
event, a key typed one character at a time ends up as that first character
only; a pasted key is entered whole.

## Model

| member | source | states |
|---|---|---|
| `SnakeGame.Game.constructor` | src/components/overlays/SnakeGame.tsx:21-25 | The game starts with body `[(10,10)]`, food `(15,15)`, direction `(0,0)`, score 0 and not over. This state meets the game invariant. |
| `SnakeGame.Game.Tick` | src/components/overlays/SnakeGame.tsx:27-57 | A finished game stays unchanged. A head off the board, or on any pre-move cell, sets game-over and leaves body, food and score alone. Direction `(0,0)` always ends the game. Otherwise the new body is the new head followed by the old body, minus its last cell unless food was eaten. Eating adds exactly 10 points and one cell and redraws the food. Not eating changes neither score, length nor food. The invariant is kept: body on the board with no duplicates, food on the board, a unit or zero direction, and score equal to 10 times the cells grown. |
| `SnakeGame.Game.Key` | src/components/overlays/SnakeGame.tsx:74-89 | The new direction is the guarded `Steer` of the old one. Body, food, score and game-over stay the same. The invariant is kept. |
| `SnakeGame.Steer` | src/components/overlays/SnakeGame.tsx:74-89 | A non-arrow key changes nothing. An arrow key sets its own unit vector exactly when the pending direction has no component on that key's axis (dot product zero). Otherwise the direction stays. |
| `SnakeGame.KeyVector` | src/components/overlays/SnakeGame.tsx:75-88 | Exactly the four arrow keys name a direction. Each one is a non-zero unit axis vector. |
| `SnakeGame.SteerKeepsDirection` | src/components/overlays/SnakeGame.tsx:74-89 | From standstill or a unit axis vector, any key leaves standstill or a unit axis vector. |
| `SnakeGame.SteerNeverReverses` | src/components/overlays/SnakeGame.tsx:74-89 | One key never turns a moving direction into its opposite. |
| `SnakeGame.TwoKeysCanReverse` | src/components/overlays/SnakeGame.tsx:76-87 | Up and then Left, pressed while moving right, give `(-1,0)`: two keys within one tick reverse the snake. |
| `SnakeGame.StepKeepsBodyWellFormed` | src/components/overlays/SnakeGame.tsx:34-57 | An on-board head that is not in the body, put in front of a well-formed body, with or without the last cell dropped, gives a well-formed body again. |
| `SnakeGame.RandomCoord` | src/components/overlays/SnakeGame.tsx:52-53 | `Floor(r * 20)` for `r` in `[0,1)` lies in `[0,20)` and is the floor of `r * 20`. |
| `SnakeGame.RandomCell` | src/components/overlays/SnakeGame.tsx:51-54 | The relocated food cell always lies on the board. |
| `SnakeGame.RandomCellReachesEveryCell` | src/components/overlays/SnakeGame.tsx:51-54 | Every board cell is the food cell for some pair of draws in `[0,1)`. |
| `SnakeGame.FoodMayLandOnBody` | src/components/overlays/SnakeGame.tsx:51-54 | For every cell of a well-formed body, some draws place the food on it. Nothing excludes the snake. |
| `SnakeGame.FirstTickWithoutKeyEndsGame` | src/components/overlays/SnakeGame.tsx:21-43 | From the start state, a tick before any key ends the game. The body stays `[(10,10)]` and the score stays 0. |
| `SnakeGame.FiveTicksRight` | src/components/overlays/SnakeGame.tsx:27-57 | From the start, Right and five ticks leave the head at `(15,10)` with length 1 and score 0. The game is not over and the food is still `(15,15)`. |
| `SnakeGame.TailChaseEndsGame` | src/components/overlays/SnakeGame.tsx:39-43 | A four-cell snake that steers its head onto the cell its tail is about to leave ends the game, with the body unchanged and score 30. |
| `LoadingScreen.Reached` | src/components/ui/LoadingScreen.tsx:14-21 | The in-order scan stops at the first threshold that progress is strictly below. Every threshold before that point is at most the progress. |
| `LoadingScreen.Stage` | src/components/ui/LoadingScreen.tsx:14-21 | The stage `k` of a progress value is one of 0..5, with threshold `k-1 <=` progress `<` threshold `k`. |
| `LoadingScreen.StatusMessage` | src/components/ui/LoadingScreen.tsx:14-21 | The message is the one of the progress's stage. It is "Loading 3D models..." exactly when progress is below 20. Any progress of 95 or more gives "Almost ready!". |
| `LoadingScreen.StatusBands` | src/components/ui/LoadingScreen.tsx:14-21 | Each of the six messages is shown exactly on its half-open band between consecutive thresholds 20, 40, 60, 80 and 95. |
| `LoadingScreen.StatusAdvances` | src/components/ui/LoadingScreen.tsx:14-21 | As progress grows, the status line only moves forward through the list. |
| `LoadingScreen.NextTip` | src/components/ui/LoadingScreen.tsx:36 | The next tip index lies in `[0,6)`. It is the following index, wrapping from 5 to 0. |
| `LoadingScreen.RotateAdvances` | src/components/ui/LoadingScreen.tsx:34-39 | `n` rotation steps from index `i` give `(i + n) mod 6`. |
| `LoadingScreen.SixIntervalsReturn` | src/components/ui/LoadingScreen.tsx:5-12 | Six rotation steps from any tip index return to it. |
| `LoadingScreen.LoadingProgress.constructor` | src/components/ui/LoadingScreen.tsx:25-26 | Displayed progress starts at 0 and the tip index at 0. |
| `LoadingScreen.LoadingProgress.SyncProgress` | src/components/ui/LoadingScreen.tsx:30-32 | The effect sets displayed progress to the loader's progress and leaves the tip alone. |
| `LoadingScreen.LoadingProgress.RotateTip` | src/components/ui/LoadingScreen.tsx:34-39 | One interval advances the tip index by `NextTip` and keeps it in `[0,6)`. |
| `LoadingScreen.LoadingProgress.Render` | src/components/ui/LoadingScreen.tsx:41-69 | Nothing is drawn exactly when `!active && displayProgress >= 100`. Otherwise the status follows the loader's progress and the bar follows displayed progress. The asset line appears exactly when the total is positive, and the tip shown is the one at the current tip index. |
| `LoadingScreen.FinishedLoadingHides` | src/components/ui/LoadingScreen.tsx:28-41 | With progress 100 and loading idle, the first render still shows "Almost ready!" at 0%. Once the effect has copied the progress, nothing is drawn. |
| `GeminiTerminal.TrimStart` | src/components/ui/GeminiTerminal.tsx:26 | The result is a suffix of the input. Everything cut off is white space, and what remains does not start with white space. |
| `GeminiTerminal.TrimEnd` | src/components/ui/GeminiTerminal.tsx:26 | The result is a prefix of the input. Everything cut off is white space, and what remains does not end with white space. |
| `GeminiTerminal.TrimEmptyIffBlank` | src/components/ui/GeminiTerminal.tsx:26 | The trimmed input is empty exactly when every character is white space. |
| `GeminiTerminal.Terminal.constructor` | src/components/ui/GeminiTerminal.tsx:11-16 | History starts as the single model greeting. Input and key are empty and loading is false. |
| `GeminiTerminal.Terminal.Type` | src/components/ui/GeminiTerminal.tsx:113 | Typing replaces the input and nothing else. |
| `GeminiTerminal.Terminal.EnterKey` | src/components/ui/GeminiTerminal.tsx:78-84 | A key can be entered only while none is set, since the field is rendered only then. Entering it sets the key and changes nothing else. |
| `GeminiTerminal.Terminal.BeginSend` | src/components/ui/GeminiTerminal.tsx:25-36 | Blank input changes nothing and sends nothing. With no key, history gains exactly the user's text and then the fixed key error. Input is cleared, loading is untouched and nothing is sent. With a key, history gains exactly the user's text, input is cleared, loading becomes true and that text is sent. History only ever grows by appending. |
| `GeminiTerminal.Terminal.Finish` | src/components/ui/GeminiTerminal.tsx:61-70 | Exactly one model entry is appended: the reply text on success, or the fixed "Connection Fault" text on failure. Loading is false afterwards on both paths. |
| `GeminiTerminal.AskWithoutKey` | src/components/ui/GeminiTerminal.tsx:26-31 | From the start, a non-blank question with no key leaves greeting, question and key error, with loading false. |
| `GeminiTerminal.Exchange` | src/components/ui/GeminiTerminal.tsx:25-70 | With a key, one exchange sends the question. It leaves greeting, question, and then the reply or the fault, with loading false. |

## Left out

- Canvas drawing of the snake and food and the overlay markup: this is pixel and DOM output only.
- The React effect lifecycle: the 150 ms interval, adding and removing the key listener, and the effect re-running on `gameOver` with fresh local state. `Tick` and `Key` are plain method calls, and `gameOver` is terminal.
- The `score` React state: it only mirrors `currentScore`, and the model keeps one `score` field.
- `Math.random`: each draw is a parameter in `[0,1)`. Floating-point rounding of `r * 20` is not modelled; exact reals are used.
- The Gemini client (model set-up, system prompt, `sendMessage`, `response.text()`): it is a foreign library call. Its outcome is the parameter of `Finish`.
- Scroll-to-bottom in the terminal and the `onKeyDown` Enter binding: DOM side effects. `BeginSend` stands for both the Send button and Enter.
- `displayProgress.toFixed(0)` and the other text formatting of the loading screen: these are string formatting only.
- `useProgress` itself: its `progress`, `active`, `loaded` and `total` are parameters of `Render`.
- GeminiTerminal.IsWhitespace: it lists the ECMAScript white-space and line-terminator characters (tab, line feed, vertical tab, form feed, carriage return, space, no-break space, U+1680, U+2000 to U+200A, line and paragraph separators, U+202F, U+205F, U+3000, byte-order mark). The model does not consult the Unicode database for other space separators.
- The 3D scene components, the matrix screen animation, the overlay and music contexts, model preloading and build configuration are not part of this model. Each is scene declaration, float animation or a bare state setter.
