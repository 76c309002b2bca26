# pyboids core in Dafny

A model of the computational core of pyboids, a steering-behaviour ("boids")
simulator built on pygame and numpy, in both of its revisions. The newer
revision lives in `pyboids/app/`, the older one in `app/`. The model proves
properties of what it covers.

- **Vector utilities** (`vectors.dfy`, module `Vectors`). These model
  `pyboids/app/utils.py`:
  - squared norm, norm and both distances;
  - `normalize`, with its optional pre-computed norm and its 1e-13 floor;
  - `truncate`, which caps a vector's length;
  - the pixel/grid conversions;
  - `randrange`, with the random draw passed in.

  numpy's two-element arrays become the datatype `Vec2` over reals.
  `math.sqrt` is a parameter `sqrt: real -> real`. Every property that depends
  on it being the square root assumes `IsSqrt(sqrt)`, which says `sqrt` gives
  the non-negative root of each non-negative real.
- **Boid kinematics, newer revision** (`boids.dfy`, module `Boids`). A class
  `Boid` with mutable `pos`, `vel`, `steering`, `mass` and `wanderingAngle`:
  - `Steer` adds the truncated, mass-scaled force to the steering accumulator;
  - `Update` caps the velocity and integrates the position;
  - `ResetFrame` clears the steering.

  `LeaderBoid` differs only by its image file. It is the same class with
  `kind == Leader`.
- **Boid kinematics, older revision** (`legacy_boids.dfy`, module
  `LegacyBoids`). The same kinematics with the older maximum force. It adds
  the distance queries, which give `Infinite` (Python's `float("inf")`) for an
  absent partner. Here `Display` is what clears the steering.
- **GUI state** (`gui.dfy`, module `Gui`, and `hovering.dfy`). These model
  `pyboids/app/gui.py`:
  - the frame lifetime of `TempMessage`;
  - the periodic counter of `FPSMessage`, including the ZeroDivisionError
    raised when the accumulated frame time is 0;
  - the hover/click state machine of `Button`;
  - the circular label list of `ToggleButton`, with its
    `replace("-", " ").title()` label formatting, the ValueError of an
    unknown initial label and the IndexError of toggling an empty list.

  The cursor-inside-rect test is the boolean carried by a motion event
  (`Some(inside)`). A click event is a boolean. Action callbacks are reported
  as returned flags.
- **Older utilities** (`legacy_utils.dfy`, module `LegacyUtils`). These model
  `app/utils.py`:
  - the pixel/grid conversions with that revision's constants;
  - the `Vector2` class, whose storage is an `array<real>` of length 2 that
    the operators `+`, `-`, `*` and `/` update in place;
  - the older `Button`, whose default action does nothing.
- **Constants** (`params.dfy`) are the numeric values of both `params.py`
  files:
  - the screen size;
  - `COL` and `ROW`, both 80;
  - `BOID_MAX_FORCE`: 10.0 in the newer revision, 0.8 in the older;
  - `BOID_MAX_SPEED`: 7.0 in both.

Two details of the code are easy to misread. `Boid.update` does not clear the steering accumulator: the
newer revision clears it in `reset_frame` and the older one in `display`.
The initial wandering angle `np.pi * (2 * r - 1)`, for a draw r in [0, 1),
lies in [-π, π), with π the double nearest to it.

The older `app/boid.py` calls `utils.truncate`, `utils.norm` and
`utils.norm2`, which the older `app/utils.py` does not define. The model
uses the `pyboids/app/utils.py` definitions for them.

The state-changing members are methods on classes. Each one's `ensures`
states the whole new state in terms of the old one, using the functions of
`Vectors` and `Gui`. The lemmas prove the properties of those functions, for
example:
- truncation bound, exactness and idempotence;
- the unit norm of a normalized vector;
- the round trip of the grid conversions;
- a full cycle of toggles giving back the original labels;
- the counter window of `FPSMessage` over any run of positive frame times;
- the frame on which a `TempMessage` dies.

## Model

| member | source | states |
|---|---|---|
| Vectors.RandRange | pyboids/app/utils.py:8-10 | for a draw in [0, 1) and a <= b the result lies in [a, b], strictly below b when a < b |
| Vectors.PxToGrid | pyboids/app/utils.py:13-15 | the grid position times the column width / row height gives back the pixel position |
| Vectors.GridToPx | pyboids/app/utils.py:18-20 | the pixel position divided by the column width / row height gives back the grid position |
| Vectors.GridRoundTrip | pyboids/app/utils.py:13-20 | px_to_grid and grid_to_px are inverse to each other in both orders |
| Vectors.Norm2 | pyboids/app/utils.py:28-30 | the squared norm is non-negative and is 0 exactly for the zero vector |
| Vectors.Norm | pyboids/app/utils.py:23-25 | the norm is non-negative and its square is the squared norm |
| Vectors.Dist2 | pyboids/app/utils.py:33-41 | the squared distance is non-negative and is 0 exactly when the points are equal |
| Vectors.Dist | pyboids/app/utils.py:44-52 | the distance is non-negative and its square is the squared distance |
| Vectors.DistSymmetric | pyboids/app/utils.py:33-52 | dist2 and dist are symmetric in their arguments |
| Vectors.DistZero | pyboids/app/utils.py:44-52 | the distance is 0 exactly between equal points; a point is at distance 0 from itself |
| Vectors.NormScale | pyboids/app/utils.py:23-25 | scaling a vector by k >= 0 scales its norm by k |
| Vectors.Normalize | pyboids/app/utils.py:55-69 | the norm used is pre_computed when given and the computed norm otherwise; below 1e-13 the result is exactly zero, otherwise the result times that norm is the input |
| Vectors.NormalizeUnit | pyboids/app/utils.py:65-69 | a vector of norm >= 1e-13 normalizes to norm 1, as a positive multiple of itself |
| Vectors.Truncate | pyboids/app/utils.py:72-78 | a vector whose norm is at most max_length is returned unchanged |
| Vectors.TruncateLong | pyboids/app/utils.py:72-76 | a longer vector of norm >= 1e-13 comes out with norm exactly max_length, as the input scaled by the non-negative factor max_length / norm |
| Vectors.TruncateBound | pyboids/app/utils.py:72-78 | for max_length >= 0 the result's norm never exceeds max_length |
| Vectors.TruncateIdempotent | pyboids/app/utils.py:72-78 | truncating twice to the same non-negative cap equals truncating once |
| Hovering.NextHover | pyboids/app/gui.py:139-143 | with a motion event hover becomes whether the cursor is inside; without one it is unchanged |
| Boids.ImageFile | pyboids/app/boid.py:78-81 | the image file is "leader-boid.png" exactly for a leader boid, the only difference between the kinds |
| Boids.WanderingAngle | pyboids/app/boid.py:33 | for a random draw in [0, 1) the initial wandering angle lies in [-pi, pi) |
| Boids.Boid.constructor | pyboids/app/boid.py:20-33 | pos and vel default to the zero vector when absent; steering is zero, mass is 20, the angle comes from the draw |
| Boids.Boid.Steer | pyboids/app/boid.py:49-56 | steering grows by truncate(force / mass, cap), with cap alt_max when given and BOID_MAX_FORCE otherwise, so it moves by at most cap; nothing else changes |
| Boids.Boid.Update | pyboids/app/boid.py:58-62 | vel becomes truncate(old vel + steering, BOID_MAX_SPEED), so its norm is at most BOID_MAX_SPEED; pos advances by the new vel; steering is kept; with zero steering a velocity within the cap is unchanged |
| Boids.Boid.ResetFrame | pyboids/app/boid.py:74-75 | steering becomes zero and nothing else changes |
| LegacyBoids.Boid.constructor | app/boid.py:13-22 | pos and vel default to zero, steering is zero, mass is 20, the image is the given name and "normal-boid.png" by default, the angle comes from the draw |
| LegacyBoids.Boid.Steer | app/boid.py:38-45 | steering grows by truncate(force / mass, alt_max or the older BOID_MAX_FORCE 0.8), moving by at most that cap; nothing else changes |
| LegacyBoids.Boid.Dist | app/boid.py:47-51 | infinite exactly when other is None; otherwise non-negative with square the squared distance of the positions |
| LegacyBoids.Boid.Dist2 | app/boid.py:53-57 | infinite exactly when other is None; otherwise non-negative and 0 exactly for equal positions |
| LegacyBoids.Boid.DistPos | app/boid.py:59-60 | the distance to a point is non-negative and its square is dist_pos2 of that point |
| LegacyBoids.Boid.DistPos2 | app/boid.py:62-63 | the squared distance to a point is non-negative and 0 exactly at the boid's position |
| LegacyBoids.Boid.Update | app/boid.py:65-72 | vel becomes the capped sum of old vel and steering, with norm at most BOID_MAX_SPEED; pos advances by the new vel; steering is kept |
| LegacyBoids.Boid.Display | app/boid.py:74-83 | after drawing, steering becomes zero; nothing else changes |
| LegacyBoids.NewLeader | app/boid.py:86-89 | a leader boid is a fresh boid with the "leader-boid.png" image, pos and vel defaulting to zero, zero steering, mass 20 and the wandering angle of the draw |
| LegacyBoids.DistSymmetric | app/boid.py:47-57 | dist and dist2 between two boids are symmetric |
| LegacyBoids.DistSquared | app/boid.py:47-63 | for a present partner dist2 is dist squared, and dist_pos / dist_pos2 of the partner's position agree with them |
| Gui.ToUpper | pyboids/app/gui.py:176 | upper-casing maps letters to upper-case letters and leaves other characters alone |
| Gui.ToLower | pyboids/app/gui.py:176 | lower-casing maps letters to lower-case letters and leaves other characters alone |
| Gui.CaseMaps | pyboids/app/gui.py:176 | case mappings forget the case they start from |
| Gui.CaseInverse | pyboids/app/gui.py:176 | a lower-case letter is its own lower-case form and the lower-case form of its upper-case form, and likewise for upper case, so a change of case keeps the letter |
| Gui.ReplaceDash | pyboids/app/gui.py:176 | replace("-", " ") keeps the length and turns exactly the dashes into spaces |
| Gui.TitleFrom | pyboids/app/gui.py:176 | title-casing the rest of a string keeps its length |
| Gui.TitleFromAt | pyboids/app/gui.py:176 | each character is lower-cased when a letter comes just before it and upper-cased otherwise |
| Gui.Title | pyboids/app/gui.py:176 | str.title keeps the length, which characters are letters and which letter each one is (the same lower-case form); a letter is upper case exactly when it starts a run of letters; non-letters are unchanged |
| Gui.TitleIdempotent | pyboids/app/gui.py:176 | title-casing twice equals title-casing once |
| Gui.FormatLabel | pyboids/app/gui.py:176 | a formatted label keeps the length, contains no dash, and has a space wherever the raw label had a dash |
| Gui.FormatLabelIdempotent | pyboids/app/gui.py:184 | formatting an already formatted label changes nothing |
| Gui.RotateLeft | pyboids/app/gui.py:179 | np.roll(labels, -k) keeps the length and the multiset of labels |
| Gui.RotateLeftAt | pyboids/app/gui.py:179 | position i of the rotated list holds the element k places further on, circularly |
| Gui.IndexOf | pyboids/app/gui.py:179 | labels.index(x) is the first position holding x |
| Gui.Toggled | pyboids/app/gui.py:182-183 | any number of toggles keeps the length and the multiset of labels |
| Gui.ToggledRotates | pyboids/app/gui.py:182-183 | t toggles, for t up to the number of labels, rotate the list left by t |
| Gui.ToggleCycle | pyboids/app/gui.py:182-183 | as many toggles as there are labels restore the original order |
| Gui.TempLifetime | pyboids/app/gui.py:78-84 | after k updates the counter is k and the message is alive unless 1 <= duration <= k; kill happens on exactly the update where the counter reaches duration |
| Gui.TempMessage.constructor | pyboids/app/gui.py:76-79 | a new message has counter 0 and is alive |
| Gui.TempMessage.Update | pyboids/app/gui.py:81-84 | the counter grows by one and kill is called exactly when it equals duration |
| Gui.FpsStepWindow | pyboids/app/gui.py:107-114 | with a positive frame time, one update from counter (n-1) mod r gives counter n mod r, and time resets to 0 exactly on refresh, without raising |
| Gui.Recent | pyboids/app/gui.py:107-114 | the frame times since the last refresh are the last (number of frames mod refresh_every) of them |
| Gui.RecentSnoc | pyboids/app/gui.py:107-114 | one more frame time empties the window when it completes a refresh and is appended to it otherwise |
| Gui.RecentPositive | pyboids/app/gui.py:107-114 | positive frame times give a window of positive frame times |
| Gui.FpsRunExtend | pyboids/app/gui.py:107-114 | a run that has not raised, followed by an update that does not raise, ends in that update's state |
| Gui.FpsRunWindow | pyboids/app/gui.py:103-114 | with refresh_every >= 1 and positive frame times, no update raises; after n updates counter is n mod refresh_every (so in [0, refresh_every) and 0 every refresh_every updates) and time is the sum of the frame times since the last refresh |
| Gui.FpsMessage.constructor | pyboids/app/gui.py:101-105 | a new FPS message has counter 0 and time 0 |
| Gui.FpsMessage.Update | pyboids/app/gui.py:107-114 | counter and time grow by one frame; on reaching refresh_every time is averaged and both reset to 0 unless the division by refresh_every or by the mean time raises ZeroDivisionError |
| Gui.Button.constructor | pyboids/app/gui.py:133-136 | a new button is not hovered and keeps its text and whether it has an action |
| Gui.Button.Update | pyboids/app/gui.py:138-145 | hover follows the motion event; the action runs exactly when there is one, a click, and hover after the motion step |
| Gui.ToggleButton.constructor | pyboids/app/gui.py:172-180 | label is the formatted initial label and text is phrase + label; the button is not hovered and keeps phrase and whether it has an action; non-empty labels are rotated left by labels.index(init_label), so that init_label comes first, keeping length and multiset; empty labels stay empty |
| Gui.ToggleButton.Toggle | pyboids/app/gui.py:182-185 | with labels present they rotate left by one, label is the formatted new first label and text is phrase + label; with none it fails and changes nothing |
| Gui.ToggleButton.Update | pyboids/app/gui.py:187-190 | hover and action as for Button; a toggle happens exactly on a click while hovering with labels present, and otherwise nothing else changes |
| Gui.NewToggleButton | pyboids/app/gui.py:172-180 | construction fails (ValueError) exactly when labels are non-empty and lack init_label; otherwise the button is fresh, not hovered, keeps phrase and whether it has an action, shows phrase + formatted init_label, and holds the labels rotated left by labels.index(init_label) (init_label first, same length and multiset), or none when there were none |
| LegacyUtils.PxToGrid | app/utils.py:27-29 | the grid position times COL / ROW gives back the pixel position |
| LegacyUtils.GridToPx | app/utils.py:31-33 | the pixel position divided by COL / ROW gives back the grid position |
| LegacyUtils.GridRoundTrip | app/utils.py:27-33 | the two conversions are inverse to each other in both orders |
| LegacyUtils.Vector2.constructor | app/utils.py:92-93 | a new vector owns fresh storage holding [x, y] |
| LegacyUtils.Vector2.GetX | app/utils.py:95-96 | get_x reads the first component of the data |
| LegacyUtils.Vector2.GetY | app/utils.py:101-102 | get_y reads the second component of the data |
| LegacyUtils.Vector2.SetX | app/utils.py:95-98 | set_x stores x as the first component and keeps the second |
| LegacyUtils.Vector2.SetYAsWritten | app/utils.py:101-105 | set_y as written always raises NameError and stores nothing |
| LegacyUtils.Vector2.SetY | app/utils.py:101-105 | set_y as intended changes the second component only |
| LegacyUtils.SetYDiscrepancy | app/utils.py:103-104 | on (0, 0), setting y to 1 leaves 0 as written and stores 1 as intended |
| LegacyUtils.Vector2.Copy | app/utils.py:111-112 | copy is a new vector with fresh storage and equal components |
| LegacyUtils.Vector2.Add | app/utils.py:114-115 | v + w overwrites v with the componentwise sum and leaves w unchanged (unless it shares v's storage) |
| LegacyUtils.Vector2.Sub | app/utils.py:117-118 | v - w overwrites v with the componentwise difference and leaves w unchanged (unless shared) |
| LegacyUtils.Vector2.Mul | app/utils.py:120-121 | v * s scales both components of v in place |
| LegacyUtils.Vector2.TrueDiv | app/utils.py:123-124 | v / s divides both components of v in place, for s non-zero |
| LegacyUtils.Button.constructor | app/utils.py:66-70 | a new button is not hovered; without a supplied action the default does nothing |
| LegacyUtils.Button.Update | app/utils.py:72-79 | hover follows the motion event; the action is called exactly on a click while hovering, and it is the supplied one only when there is one |

## Left out

- Rendering is not modelled:
  - sprite images and rects, and `rect.center` syncing;
  - `rotate` (`np.angle`, `pygame.transform.rotate`);
  - every `display` drawing;
  - `mktext`, `load_image`;
  - how `Message.set_text` handles the rect.

  So the text of a message is a plain field, and "cursor inside the rect" is
  an input.
- Asset, font and sound loading (`pyboids/app/assets.py`,
  `pyboids/app/settings.py`), the pygame event loops (`app/menu.py`,
  `app/simulation.py`) and `pyboids/app/obstacle.py` are I/O or rendering.
  Nothing in their behaviour is modelled.
- `app/flock.py` is a stub whose `update` does nothing. The flock's steering
  behaviours are not part of the sources and are not modelled.
- Randomness: `np.random.random()` and `np.random.rand()` become a `draw`
  parameter, assumed to lie in [0, 1) where a property needs it.
- Vectors.Norm: its properties are stated only for a `sqrt` satisfying `IsSqrt`, because `math.sqrt` is a parameter, not a definition.
- Vectors.Dist: its properties are stated only under `IsSqrt`, for the same reason.
- LegacyBoids.Boid.Dist: its finite value's properties are stated only under `IsSqrt`.
- LegacyBoids.Boid.DistPos: its properties are stated only under `IsSqrt`.
- Boids.Boid.Steer: the movement bound is stated only under `IsSqrt`; the exact new steering holds for any `sqrt`.
- LegacyBoids.Boid.Steer: likewise.
- Boids.Boid.Update: the speed bound is stated only under `IsSqrt`.
- LegacyBoids.Boid.Update: likewise.
- Floating point is modelled by exact reals. Rounding, overflow, and NaN and infinity propagation are not modelled.
- LegacyUtils.Vector2.TrueDiv: requires a non-zero divisor, because numpy would produce inf or nan with a warning rather than raise.
- numpy dtype quirks are left out. `Vector2(x=0, y=0)` with integer
  arguments stores an integer array, and in-place operations would then cast
  or fail. The model stores reals, and the constructor takes both components
  explicitly instead of defaulting them to 0.
- LegacyUtils.Vector2.Add and LegacyUtils.Vector2.Sub state that `other` is
  unchanged only when it does not share `self`'s storage. When it does, the
  components come out as those of `v + v` and `v - v`. The model computes
  both components before storing them, as numpy's element-wise operation
  does. The operators' return value `None` is not represented.
- Gui.ToUpper, Gui.ToLower, Gui.TitleFrom and Gui.Title treat only ASCII
  letters as letters. Python's `str.title` also cases non-ASCII letters,
  which the model leaves unchanged.
- Gui.RotateLeft covers shifts 0 ≤ k ≤ len, which are the only ones the
  source uses. `np.roll` accepts any integer.
- The FPS text `"FPS: {}".format(round(1 / time, 1))` is not modelled. The
  model reports the mean frame time that the text is computed from, and the
  error raised when that mean is 0.
- Action callbacks are not called. Button updates return whether the action
  would be invoked, and what the action itself does is outside the model.
  Calling the action before the toggle is reflected only in the order of the
  method body.

## Findings

| source | as written | input that shows it | evidently intended | confidence | as-written member | corrected member |
|---|---|---|---|---|---|---|
| app/utils.py:103-104 | `set_y(self, x)` assigns `self._data[1] = y`, and `y` is not a defined name, so every call raises NameError and nothing is stored | `v = Vector2(0, 0); v.y = 1` leaves `v.y == 0` (after the NameError) | store the argument as the second component, like `set_x` | high (not executed) | LegacyUtils.Vector2.SetYAsWritten, LegacyUtils.SetYDiscrepancy | LegacyUtils.Vector2.SetY |
