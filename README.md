# SRD battle GUI, state popups and face menu — a Dafny model

This project models the core of three RPG Maker MV plugins by SumRndmDde.

**Battle GUI Core** (`SRD_BattleGUICore.js`) moves the battle windows every frame. Each window has:

- a *true* position that slides 4 pixels a frame toward a goal, or jumps to the goal when it is farther than the "Instant Move Distance";
- an *offset* that steps at its own speed toward a goal set by the first motion rule whose condition holds;
- for windows named in "Force Within Screen", a correction that pushes the true position back inside the screen box.

The published `x`/`y` is the true position plus the offset. At load time the plugin builds two things:

- the force list, split at commas and lower-cased in place;
- the motion table, filled from the "Motion N" parameter groups.

The model has three modules for this:

- `GuiMotion` holds these steps as functions on a `Pose` value, with the lemmas about them.
- `GuiWindow.BattleWindow` is the window: a class whose methods update its fields in place, each proved equal to its `GuiMotion` function.
- `GuiSettings` holds the load-time loops.

**State Popups** (`SRD_StatePopups.js`) shows a popup for each state added or removed by an action, and for each buff, debuff and removed buff. It works in three stages:

- At database load, `loadNotetags` reads ten `<Popup …: value>` tags from every state's note, falling back to the plugin defaults. This is modelled in `PopupTags`, including the case-insensitive, leftmost regular-expression match and its capture.
- During battle, `addState` records each newly added state once, in first-added order, in the action result. This is modelled in `PopupResult` (`ActionResult` and `Battler`).
- `Sprite_Damage.setup` then creates one popup per entry, each followed by a shift of the popup position. It goes group by group, in a fixed order: added states, removed states, buffs, debuffs, removed buffs. A state's popup text is its add or remove template with the first `%1` replaced by the state's name. This is modelled in `PopupSetup.DamageSprite`.

**Alternative Menu Screen (Face)** (`SRD_AltMenuScreen_Face.js`) lays out the main menu. The status window shows a grid of faces, sized to hold at most `Max Status Cols` columns and `Max Status Rows` visible rows. The command window spans the bottom of the screen. The gold and status windows are centred at the top. This is modelled in `FaceMenu`, which is pure.

`Text` holds the string helpers these need:

- JavaScript's `trim`, ASCII `toLowerCase`, `split(/\s*,\s*/)`, `parseInt` on decimal digits, and `replace(/%1/, name)`, including its `$` patterns.
- `Param`, which reads a plugin parameter and gives the string `"undefined"` for a missing one.

Code that the plugins run through `eval` is not interpreted. The model takes its outcome as an input:

- A `FrameEnv` supplies the truth of each condition string, the number each code string yields, and the screen box.
- `flashList` supplies the array a flash-colour string evaluates to.
- `Setup` takes the popup condition and `isStatusAffected` as booleans.

## Model

| member | source | states |
|---|---|---|
| GuiMotion.Approach | SRD_BattleGUICore.js:3884-3890 | a coordinate moves `speed` closer to its goal without passing it, and stays put at the goal |
| GuiMotion.Snapped | SRD_BattleGUICore.js:3965-3968 | instant placement leaves the true position at distance 0 from the goal and changes nothing else |
| GuiMotion.MoveTowardGoal | SRD_BattleGUICore.js:3880-3898 | a window farther than the instant-move distance (never when that is NaN) lands on its goal; otherwise each axis moves 4 closer without overshooting; distance drops to 0 or by 4 |
| GuiMotion.FirstActiveFrom | SRD_BattleGUICore.js:3946-3956 | the index found is the first rule whose condition holds; none means no rule holds |
| GuiMotion.MotionGoals | SRD_BattleGUICore.js:3943-3963 | the first holding rule sets the offset goals and speed; with rules but none holding, goals are 0 and the speed is the reset speed; a window without rules is unchanged |
| GuiMotion.StepOffset | SRD_BattleGUICore.js:3925-3941 | each offset approaches its goal at the offset speed without overshooting; nothing else changes |
| GuiMotion.ClampAxis | SRD_BattleGUICore.js:3909-3921 | after the restriction the window's near edge is on screen, and its far edge too when it fits; a window already inside does not move; one past an edge moves just to that edge |
| GuiMotion.Restrict | SRD_BattleGUICore.js:3908-3923 | only a force-listed window moves, only its true position changes, and it ends inside the box on every axis where it fits |
| GuiMotion.Publish | SRD_BattleGUICore.js:3904-3905 | the published position is the true position plus the offset |
| GuiMotion.Frame | SRD_BattleGUICore.js:3879-3906 | after a frame `x`/`y` is true position plus offset, the goal is kept, an unrestricted window's true position is the slide result, and a restricted one is on screen |
| GuiMotion.FrameCountdown | SRD_BattleGUICore.js:3879-3898 | each frame strictly shrinks the distance to the goal until it is 0, and takes one off the frames still needed |
| GuiMotion.RunArrives | SRD_BattleGUICore.js:3879-3906 | with a fixed goal and no screen restriction, a window is at its goal after n frames iff n is at least 1 when it is far and ceil(distance/4) otherwise |
| GuiWindow.BattleWindow.constructor | SRD_BattleGUICore.js:3993-3998 | positions initialised, the motion rules of the window's name attached when the table has some, and the stay-on-screen flag set iff the name is in the force list |
| GuiWindow.BattleWindow.InitializePositions | SRD_BattleGUICore.js:3970-3978 | offsets, offset goals and speed are 0 and the true position is the current `x`/`y` |
| GuiWindow.BattleWindow.SetGoal | SRD_BattleGUICore.js:4044-4046 | the goal fields take the evaluated goal |
| GuiWindow.BattleWindow.InstantPlacement | SRD_BattleGUICore.js:3965-3968 | the window's pose becomes `Snapped` of the old pose |
| GuiWindow.BattleWindow.UpdateOffsetConditions | SRD_BattleGUICore.js:3943-3963 | the loop with early exit leaves the pose `MotionGoals` of the old pose |
| GuiWindow.BattleWindow.UpdateOffset | SRD_BattleGUICore.js:3925-3941 | the pose becomes `StepOffset` of the old pose |
| GuiWindow.BattleWindow.UpdateScreenRestrict | SRD_BattleGUICore.js:3908-3923 | the four pixel-by-pixel loops end exactly at `Restrict` of the old pose |
| GuiWindow.BattleWindow.MoveTrueTowardGoal | SRD_BattleGUICore.js:3880-3898 | the snap and the two slides leave the pose `MoveTowardGoal` of the old pose |
| GuiWindow.BattleWindow.UpdateMovement | SRD_BattleGUICore.js:3879-3906 | one call leaves the pose `Frame` of the old pose |
| GuiSettings.FoldContents | SRD_BattleGUICore.js:3784-3800 | the motion table holds exactly the fully filled motions, each under its lower-cased window name in parameter order; a window with none has no entry |
| GuiSettings.MotionTableContents | SRD_BattleGUICore.js:3784-3800 | the same for the table read from a parameter map |
| GuiSettings.MotionTable | SRD_BattleGUICore.js:3784-3800 | the motion table read from the parameters; what it holds is stated by `MotionTableContents` and `OnlyFirstMotionRead`, and the loop that builds it by `BuildMotionTable` |
| GuiSettings.SameSlot | SRD_BattleGUICore.js:3786-3790 | motion i is read from its five parameters alone |
| GuiSettings.OnlyFirstMotionRead | SRD_BattleGUICore.js:3785 | the loop reads only motion 1: tables agreeing on motion 1's parameters give the same motion table |
| GuiSettings.ReadMotion | SRD_BattleGUICore.js:3786-3791 | one turn's reads, lower-casing of the window name and all-five-non-blank test |
| GuiSettings.FoldSnoc | SRD_BattleGUICore.js:3785-3799 | one more visited motion registers it on top of the table built so far |
| GuiSettings.AddMotion | SRD_BattleGUICore.js:3791-3798 | a filled motion is appended to its window's list, created empty first when missing; an unfilled one changes nothing |
| GuiSettings.BuildMotionTable | SRD_BattleGUICore.js:3784-3800 | the loop yields the motion table of the parameters |
| GuiSettings.LoadForceScreens | SRD_BattleGUICore.js:3733-3734 | the force list is the parameter split at commas, each entry lower-cased |
| GuiSettings.LowerInPlace | SRD_BattleGUICore.js:3734 | the in-place loop lower-cases every entry and keeps the order |
| GuiSettings.ForceListMembership | SRD_BattleGUICore.js:3733-3734 | a window stays on screen iff its name equals, ignoring case, one of the names listed with ", " between them |
| GuiSettings.LoadConfig | SRD_BattleGUICore.js:3733-3736 | force list, reset speed, `parseInt` of the instant-move distance and the motion table as read at load |
| Text.Trim | SRD_BattleGUICore.js:3791 | trimming leaves nothing exactly when the string is all whitespace |
| Text.Lower | SRD_BattleGUICore.js:3734 | the lower-cased string has the same length and each character lower-cased |
| Text.Param | SRD_BattleGUICore.js:3731-3736 | `String(params[key])`: the parameter as stored, or `"undefined"` for a missing key; `LoadConfig` and `ReadMotion` state what is read through it |
| Text.SplitList | SRD_BattleGUICore.js:3733 | `split(/\s*,\s*/)`; see `SplitListJoin` for the names it gives back |
| Text.SplitListJoin | SRD_StatePopups.js:1222 | splitting names joined with ", " at `\s*,\s*` gives back the names |
| Text.ParseInt | SRD_BattleGUICore.js:3736 | `parseInt`; see `ParseNatToString` for what it gives on a decimal numeral |
| Text.ParseNatToString | SRD_BattleGUICore.js:3736 | `parseInt` of a decimal numeral gives its number |
| Text.IndexOfFirst | SRD_StatePopups.js:1312 | the search finds the leftmost occurrence of `%1`, or reports that there is none |
| Text.ReplaceFirstSplit | SRD_StatePopups.js:1312 | replacing the first `%1` of `a%1b` (no `%1` in `a`) by a name without `$` gives `a` + name + `b` |
| Text.ReplaceFirstNone | SRD_StatePopups.js:1319 | a text without `%1` is left as it is |
| Text.ReplaceFirst | SRD_StatePopups.js:1312 | `replace(/%1/, name)`; see `IndexOfFirst`, `ReplaceFirstSplit` and `ReplaceFirstNone` |
| PopupTags.MatchWordCased | SRD_StatePopups.js:1171-1180 | a tag word matches whatever its letter case |
| PopupTags.LastCloseIsLast | SRD_StatePopups.js:1171-1180 | the `>` found is the last one on the line, and when none is found the line has no `>` |
| PopupTags.MatchAt | SRD_StatePopups.js:1171-1180 | the pattern tried at one position; its capture is stated by `CaptureShape`, `CaptureAt` and `TagMatchAt` |
| PopupTags.FindTag | SRD_StatePopups.js:1171-1180 | `note.match(pattern)` as its capture; see `MatchFromLeftmost`, `FindTagRoundTrip` and `FindTagCloseNextLine` |
| PopupTags.MatchFromLeftmost | SRD_StatePopups.js:1171-1180 | a note matches iff the pattern matches at some position, and the match found is the leftmost |
| PopupTags.CaptureShape | SRD_StatePopups.js:1171-1180 | a capture lies on one line and does not start with whitespace |
| PopupTags.CaptureAt | SRD_StatePopups.js:1171-1180 | when the value's line ends in `>`, the capture is the value; it also keeps that `>` when only whitespace, across line ends, leads from the line end to another `>` |
| PopupTags.TagMatchAt | SRD_StatePopups.js:1171-1180 | a written tag that ends its line is matched where it starts, with the capture of `CaptureAt`, whatever blanks it has before each word, before the colon and after it |
| PopupTags.FindTagRoundTrip | SRD_StatePopups.js:1171-1180 | a tag written in a note gives back its value after any pieces each of which is text with no `<` or a well-formed tag of another field (its value with no `<`): `Popup` and the field's words in any letter case, and any run of whitespace (or none) before each word, before the colon and after it, each chosen on its own; the value does not start with whitespace, and what follows its line does not lead through whitespace alone to a `>` |
| PopupTags.FindTagDocumented | SRD_StatePopups.js:449-458 | each field's tag in the documented layout, `<Popup Add Text: value>` with title-case words after one space each, no space before the colon and one after it, gives back its value after any pieces each of which is text with no `<` or a well-formed tag of another field (its value with no `<`), under the other conditions of `FindTagRoundTrip`; X and Y take the letter alone, as the pattern reads them (see `OffsetTagIgnored`) |
| PopupTags.FindTagCloseNextLine | SRD_StatePopups.js:1171-1180 | when only whitespace, across line ends, separates the tag's line from a later `>`, the pattern's `\s*>` reaches that `>` and the capture is the value with the tag's own `>` kept; the pieces before the tag and its blanks are as in `FindTagRoundTrip` |
| PopupTags.InfoFor | SRD_StatePopups.js:1181-1236 | the popup information of one note; see `InfoForField`, `NoTagDefaults`, `InfoForRoundTrip` and `ReadPopupInfo` |
| PopupTags.InfoForField | SRD_StatePopups.js:1181-1236 | each popup field comes from its own tag's decoded capture when the note has one, else from the default |
| PopupTags.NoTagDefaults | SRD_StatePopups.js:1181-1236 | a note without `<` gives all the defaults |
| PopupTags.InfoForRoundTrip | SRD_StatePopups.js:1186-1235 | the field of a tag written in a note, after any pieces each of which is text with no `<` or a well-formed tag of another field (its value with no `<`), reads back as its decoded value, under the other conditions of `FindTagRoundTrip` |
| PopupTags.AnimationsRoundTrip | SRD_StatePopups.js:1221-1222 | animation names written with ", " between them read back as the names, after any pieces each of which is text with no `<` or a well-formed tag of another field (its value with no `<`), under the other conditions of `FindTagRoundTrip` |
| PopupTags.ForeignTagFails | SRD_StatePopups.js:1171-1180 | the pattern of one field fails at the `<` of another field's tag: no field's words lead into another's (`Color` and `Flash Color` part at the first word, `Flash Color` and `Flash Duration` at the second) |
| PopupTags.WordsDiverge | SRD_StatePopups.js:1171-1180 | the word lists of two different fields part at a pair of words neither of which is a prefix of the other |
| PopupTags.NoTagAmong | SRD_StatePopups.js:1171-1180 | a note made only of text with no `<` and well-formed tags of other fields has no tag of the field, so it keeps its default |
| PopupTags.FindTagInPieces | SRD_StatePopups.js:1171-1180 | a tag anywhere in a note, after only text with no `<` and other fields' tags, and followed by the end of the note or by a line end that does not lead through whitespace alone to a `>`, gives back its value |
| PopupTags.ThreeTags | SRD_StatePopups.js:1171-1180 | three well-formed tags of three different fields on three lines are each read back, and no other field finds a tag |
| PopupTags.ExampleTags | SRD_StatePopups.js:464-467 | the documented example note, three tags on three lines, gives `Poison Was Added!` as the add text, `#0FF0FF` as the outline and `120, 100, 50, 160` as the flash colour, and no tag for any other field |
| PopupTags.ExampleInfo | SRD_StatePopups.js:1181-1236 | the popup information of the documented example note is the defaults with those three fields replaced, the flash colour decoded as a list |
| PopupTags.OffsetTagIgnored | SRD_StatePopups.js:1173-1174 | a `<Popup X Offset: …>` tag, with any run of whitespace (or none) before the letter and, chosen on its own, before the next word, does not match the X pattern, so the default stays |
| PopupTags.OffsetTagFails | SRD_StatePopups.js:1173-1174 | the pattern fails wherever `X` is followed, after its own run of whitespace, by a word instead of `:` |
| PopupTags.ReadText | SRD_StatePopups.js:1186-1215 | a text field is the tag's capture or the default |
| PopupTags.ReadNumber | SRD_StatePopups.js:1216-1220 | a duration field is `parseInt` of the capture or the default |
| PopupTags.ReadPopupInfo | SRD_StatePopups.js:1184-1235 | the ten reads give the popup information of the note |
| PopupTags.LoadAll | SRD_StatePopups.js:1181-1237 | the state table after loading; see `LoadAllAt`, `LoadAllFirst` and `LoadNotetags` |
| PopupTags.LoadAllAt | SRD_StatePopups.js:1181-1237 | every table entry is loaded on its own, from its own note |
| PopupTags.LoadOne | SRD_StatePopups.js:1182-1236 | an existing state gets its popup information and an empty entry is left alone |
| PopupTags.LoadAllFirst | SRD_StatePopups.js:1181 | entry 0 is never touched |
| PopupTags.LoadNotetags | SRD_StatePopups.js:1170-1238 | the in-place loop leaves the state table loaded entry by entry |
| PopupResult.Push | SRD_StatePopups.js:1287-1291 | after a push the id is present, nothing else is added, the old list is a prefix and no id is repeated |
| PopupResult.PushedFirstOccurrences | SRD_StatePopups.js:1283-1291 | pushes keep each id once, exactly the ids pushed, in the order of their first push |
| PopupResult.StatesOf | SRD_StatePopups.js:1277-1281 | one state per id, in order, an unknown id giving none |
| PopupResult.ActionResult.constructor | SRD_StatePopups.js:1272-1275 | a new result has no new-added states |
| PopupResult.ActionResult.Clear | SRD_StatePopups.js:1272-1275 | clearing empties the new-added list |
| PopupResult.ActionResult.IsNewStateAdded | SRD_StatePopups.js:1283-1285 | whether the id is in the new-added list; `PushNewAddedState` guards with it, and `Push` states the result |
| PopupResult.ActionResult.PushNewAddedState | SRD_StatePopups.js:1287-1291 | the list becomes `Push` of the old one |
| PopupResult.ActionResult.AddedNewStateObjects | SRD_StatePopups.js:1277-1281 | the state objects of the new-added ids, in list order |
| PopupResult.Battler.constructor | SRD_StatePopups.js:1260 | a battler starts with its action result and no forwarded calls |
| PopupResult.Battler.AddState | SRD_StatePopups.js:1260-1265 | the id is recorded iff the state is addable and not already affected, and the engine's `addState` is called in every case |
| PopupSetup.EmittedAppend | SRD_StatePopups.js:1309-1340 | the events of consecutive groups are the groups' events one after the other |
| PopupSetup.EmittedShape | SRD_StatePopups.js:1309-1340 | event 2k is the k-th popup and event 2k+1 the shift |
| PopupSetup.EmittedSnoc | SRD_StatePopups.js:1313-1314 | one more popup adds its popup and a shift at the end |
| PopupSetup.StateText | SRD_StatePopups.js:1310-1319 | the add or remove template with its first `%1` replaced by the state's name; see `StatePopupText` and `StatePopupPlain` |
| PopupSetup.BuffText | SRD_StatePopups.js:1323-1337 | a raised buff shows the positive text, a lowered one the negative text, a cleared one the removal text; see `EmitBuff` and `BuffPopupsAt` |
| PopupSetup.Popups | SRD_StatePopups.js:1309-1340 | every popup of one setup; see `SetupOrder`, `AddedStatesFirst` and `Setup` |
| PopupSetup.StatePopupsAt | SRD_StatePopups.js:1309-1322 | the k-th state popup is built from the k-th state |
| PopupSetup.BuffPopupsAt | SRD_StatePopups.js:1323-1340 | the k-th buff popup uses the buff information of the k-th id |
| PopupSetup.SetupOrder | SRD_StatePopups.js:1309-1340 | popups come group by group: added states, removed states, buffs, debuffs, removed buffs |
| PopupSetup.AddedStatesFirst | SRD_StatePopups.js:1309-1315 | the setup opens with the added states' popups in order, each followed by a shift |
| PopupSetup.StatePopupText | SRD_StatePopups.js:1312 | a template `a%1b` shows `a`, the state's name, then `b` |
| PopupSetup.StatePopupPlain | SRD_StatePopups.js:1319 | a template without `%1` is shown as written |
| PopupSetup.DamageSprite.constructor | SRD_StatePopups.js:1298 | a new sprite has emitted nothing |
| PopupSetup.DamageSprite.CreateSpecialStateInfo | SRD_StatePopups.js:1344-1360 | one popup with the given text and look is created |
| PopupSetup.DamageSprite.IncrementSpecial | SRD_StatePopups.js:1314 | one shift is applied |
| PopupSetup.DamageSprite.EmitState | SRD_StatePopups.js:1310-1314 | one state's popup then a shift |
| PopupSetup.DamageSprite.EmitStates | SRD_StatePopups.js:1309-1322 | the loop emits every state's popup in order, each followed by a shift |
| PopupSetup.DamageSprite.EmitBuff | SRD_StatePopups.js:1324-1327 | one buff's popup, with its kind's text, then a shift |
| PopupSetup.DamageSprite.EmitBuffs | SRD_StatePopups.js:1323-1340 | the loop emits every id's buff popup in order, each followed by a shift |
| PopupSetup.DamageSprite.Setup | SRD_StatePopups.js:1298-1342 | when the condition holds and the status is affected, the events are the setup's popups in group order; otherwise nothing is emitted |
| FaceMenu.Min | SRD_AltMenuScreen_Face.js:154 | `Math.min` is the smaller argument |
| FaceMenu.FloorDivIsFloor | SRD_AltMenuScreen_Face.js:153 | the division is `Math.floor` of the exact quotient |
| FaceMenu.MaxCols | SRD_AltMenuScreen_Face.js:156-158 | the status columns are the party size or the parameter, whichever is smaller |
| FaceMenu.NumVisibleRows | SRD_AltMenuScreen_Face.js:152-155 | the visible rows of the status grid; see `RowsCover` |
| FaceMenu.RowsCover | SRD_AltMenuScreen_Face.js:152-155 | for a non-empty party the rows needed are ceil(n / cols), enough to hold everyone while one fewer would not; visible rows are these capped at the parameter |
| FaceMenu.ItemWidth | SRD_AltMenuScreen_Face.js:166-168 | face width plus face padding; `StatusWidthFitsColumns` and `StatusWindowHoldsParty` use it |
| FaceMenu.ItemHeight | SRD_AltMenuScreen_Face.js:163-165 | face height plus face padding; `StatusWindowHoldsParty` uses it |
| FaceMenu.StatusWindowWidth | SRD_AltMenuScreen_Face.js:145-148 | the status window width; see `StatusWidthFitsColumns` |
| FaceMenu.StatusWindowHeight | SRD_AltMenuScreen_Face.js:149-151 | the status window height; see `StatusWindowHoldsParty` |
| FaceMenu.StatusWidthFitsColumns | SRD_AltMenuScreen_Face.js:145-148 | the status window is exactly maxCols items wide with twice the text padding between neighbours and the standard padding on each side |
| FaceMenu.StatusWindowHoldsParty | SRD_AltMenuScreen_Face.js:145-168 | when the row cap does not bind, the window's inner area holds a grid of columns × rows at least the party size |
| FaceMenu.CommandWindow | SRD_AltMenuScreen_Face.js:136-144 | the command window is screen-wide with the parameter's columns and rows |
| FaceMenu.Place | SRD_AltMenuScreen_Face.js:127-135 | gold and status windows are centred horizontally, gold at the top with status below it, and the command window at the bottom-left |

## Left out

- Rendering is not modelled: bitmaps, sprites, fonts, colours, the window contents, the face drawing and its `Face X`/`Face Y` offsets, window openness and visibility. `CreateSpecialStateInfo` records only the text and look of a popup.
- `eval` of plugin code strings is not interpreted. The model takes its outcomes as inputs: `FrameEnv`, `flashList`, the popup condition, and the goal passed to `SetGoal`.
- The engine's own data is passed in rather than computed: `isStatusAffected`, the removed states, the buff lists, the popup shift, `isStateAddable` and `isStateAffected`.
- The other plugin parameters are taken as given inputs (`PopupInfo` defaults, `BuffInfo`, the face-menu `Settings`):
  - the plugin defaults and the eight buff-information groups of the State Popups loader;
  - every Battle GUI Core parameter apart from the force list, the reset speed, the move distance and the motion table;
  - the face-menu parameters, whose `Number()` conversion is not modelled.
- The database-load once-flag that calls `loadNotetags` a single time is not modelled.
- GuiWindow.BattleWindow.constructor: starts the goal at the start position. In the source, `_goalX`/`_goalY` stay unset until the first `updatePlacement` (SRD_BattleGUICore.js:3993-3998 against 4044-4046). The model has no unset value for them.
- Only `updatePlacement`'s goal assignment is modelled, as `SetGoal`. Its other effects and the per-window `update` wiring are left out.
- `_offsetOpenness`, which the offset loop assigns but nothing in the core reads, is left out.
- GuiMotion.MotionGoals: the `info &&` null check on a rule is not modelled, because the table built at load never holds a missing rule.
- Text.ParseInt: reads leading whitespace, an optional sign and decimal digits only. Hexadecimal prefixes and `NaN` arithmetic are not modelled. `None` stands for `NaN`.
- Text.Lower: only ASCII letters are lower-cased.
- The `%1` replacement of `PopupSetup.StateText` writes the text into the shared popup object. The model builds a fresh value instead, so that aliasing is not captured.
- `clone()` copies of default arrays are plain values in the model.
- PopupSetup.DamageSprite.Setup: requires every listed state to exist and to carry popup information, and every buff id to index the buff table. In the source, a missing state or id throws.
- FaceMenu.NumVisibleRows: requires a non-zero column count. For an empty party the source divides by zero and gets `-Infinity`, which is not modelled.
- FaceMenu.Place: works on real numbers. Fractional window positions are passed to the engine as they are.
- Only motion group 1 of the fifty "Motion N" parameter groups is read, because the loading loop stops at 1 (`MotionsRead`). `OnlyFirstMotionRead` states this.
- PopupTags.FindTagRoundTrip: the text before the tag may hold tags of other fields, but no other `<`. A note where another plugin's tag, or any other `<`, comes before the tag is not covered.
- PopupTags.FindTagDocumented: the same limit on the text before the tag as `FindTagRoundTrip`.
- PopupTags.FindTagCloseNextLine: the same limit on the text before the tag as `FindTagRoundTrip`.
- PopupTags.InfoForRoundTrip: the same limit on the text before the tag as `FindTagRoundTrip`.
- PopupTags.AnimationsRoundTrip: the same limit on the text before the tag as `FindTagRoundTrip`.
- PopupTags.FindTagInPieces: the same limit on the text before the tag as `FindTagRoundTrip`.
- The plugin documentation describes `<Popup X Offset: …>` tags, but the loader's pattern is `<Popup X: …>`, so such tags are ignored. `OffsetTagIgnored` and `OffsetTagFails` state this.
