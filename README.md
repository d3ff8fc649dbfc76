# RedoxGuard detection and escalation core, in Dafny

RedoxGuard is an anti-cheat plugin for Minecraft servers. This project models its core. It has five parts.

- **Per-player state.** A `PlayerData` record holds violation levels and their timestamps, movement counters, the one-second attack window and the latest ping. The `PlayerDataManager` maps each player's UUID to that record.
- **Checks and escalation.** A `Check` has a name, a category and an enabled flag behind a `flag()` guard. The `CheckManager` registers the detectors, looks them up ignoring case, and escalates violations: the level rises by one, and at `max-violations` one punishment command is queued and the level returns to 0. `CheckConfig` lookups give a default when a path is missing.
- **The heuristic detectors.**
  - Combat: AutoAnchor, AutoCrystal, CrystalAura, KillAura, TriggerBot, AdvancedTriggerBot, Reach, Hitbox.
  - Movement: Fly, Speed.
  - Player: FastBreak, FastPlace, AutoTotem, Simulation, Inventory.

  Each detector is a class. Its per-player maps are fields: last-event times, stored locations and suspicion counters. Its entry methods return the number of `flag()` calls they make.
- **`WorldCache`.** A per-player replica of block materials, keyed by packed block coordinates, with an age-based cleanup.
- **`WebhookUtil`.** The alert message, its JSON escaping and payload, and the guard deciding whether an alert is sent at all.

Modelling choices:
- Time is an explicit `now` argument.
- Ping is a `nat`, so Dafny's `/` agrees with Java's truncating integer division.
- Answers from the game server are inputs: bypass permission, game mode, on-ground state, potion levels, materials, the aim angle, distances and bounding boxes.
- Java `double` thresholds are `real`; square roots are avoided by comparing squares.
- A configuration is a `map` from path to value. Its getters follow Bukkit: a missing path gives the default; the number and boolean getters also give the default for a value of the wrong kind, and `getInt`/`getLong` truncate a stored double; `getString` returns the text of any stored string, integer or boolean.
- Three counter policies are kept apart, as pure functions in module `Suspicion`:
  - `Accumulate`: add one, flag at the new value, reset to 0. Used by AutoAnchor, AutoCrystal, CrystalAura, Simulation and AutoTotem.
  - `Sticky`: decide on the value before the increment; a clean sample takes one off, floored at 0; never reset. Used by Speed, Reach, Fly, KillAura and TriggerBot.
  - `Streak`: reset to 0 on a clean sample, never on a flag. Used by AdvancedTriggerBot.
- The check methods follow the code as written, including the defects listed under "## Findings"; the corrected definitions stand beside them, with the intended property proved about each.
- Punishment dispatch appends the resolved command to an `outbox`. `logViolation` appends a `Violation` record to a `log`.

Source paths below are relative to the repository root.

## Model

| member | source | states |
|---|---|---|
| Util.Trunc | src/main/java/com/kyssta/redoxguard/checks/player/FastBreakCheck.java:109-114 | Java's `(long)` cast of a double truncates toward zero: the result is within one of the argument, on the side of zero |
| Util.DistanceSquared | src/main/java/com/kyssta/redoxguard/checks/player/SimulationCheck.java:104-108 | the squared distance between two locations is never negative |
| Strings.Lower | src/main/java/com/kyssta/redoxguard/checks/Check.java:65 | `toLowerCase` keeps the length and folds each ASCII capital to its lower-case letter, leaving every other character |
| Strings.LowerIdempotent | src/main/java/com/kyssta/redoxguard/managers/CheckManager.java:193 | lower-casing an already lower-cased name changes nothing |
| Strings.EqualsIgnoreCasePointwise | src/main/java/com/kyssta/redoxguard/managers/CheckManager.java:143 | `equalsIgnoreCase` holds exactly when the lengths agree and the characters agree after folding, position by position |
| Strings.Replace | src/main/java/com/kyssta/redoxguard/managers/CheckManager.java:197-199 | `String.replace`: a replacement by the target itself is the identity, and text shorter than the target is returned as is |
| Strings.ReplaceNoStartChar | src/main/java/com/kyssta/redoxguard/managers/CheckManager.java:199 | text holding no character that can start the target is left unchanged by `replace` |
| Strings.ReplaceAtFront | src/main/java/com/kyssta/redoxguard/managers/CheckManager.java:199 | an occurrence at the front is replaced, and scanning resumes after it, so the replacement text is never rescanned |
| Strings.ReplaceSkipsPrefix | src/main/java/com/kyssta/redoxguard/managers/CheckManager.java:199 | a prefix with no character that can start the target passes through `replace` untouched |
| Strings.ReplaceCharAppend | src/main/java/com/kyssta/redoxguard/utils/WebhookUtil.java:128 | for a one-character target, `replace` distributes over concatenation |
| Strings.IntToStringRoundTrip | src/main/java/com/kyssta/redoxguard/utils/WebhookUtil.java:77 | the decimal rendering of the violation level parses back to the same number |
| Config.GetBoolean | src/main/java/com/kyssta/redoxguard/config/CheckConfig.java:66-68 | a missing path gives the default; a stored boolean is returned |
| Config.GetInt | src/main/java/com/kyssta/redoxguard/config/CheckConfig.java:167-169 | a missing path or a non-number gives the default; a stored integer is returned; a stored double is truncated |
| Config.GetDouble | src/main/java/com/kyssta/redoxguard/config/CheckConfig.java:139-141 | a missing path or a non-number gives the default; a stored double is returned; a stored integer is widened |
| Config.GetString | src/main/java/com/kyssta/redoxguard/config/CheckConfig.java:97-99 | a missing path gives the default; a stored string is returned as is, an integer as its decimal text, a boolean as `true` or `false` |
| Config.GetStringOfIntParsesBack | src/main/java/com/kyssta/redoxguard/config/CheckConfig.java:97-99 | a stored integer read as text parses back to that integer |
| Config.GetValue | src/main/java/com/kyssta/redoxguard/config/CheckConfig.java:111-113 | a value is found exactly when the path is stored, and it is the stored value |
| Config.IsCheckEnabled | src/main/java/com/kyssta/redoxguard/config/CheckConfig.java:66-68 | `<check>.enabled` when stored as a boolean, true when missing |
| Config.GetMaxViolations | src/main/java/com/kyssta/redoxguard/config/CheckConfig.java:79-81 | `<check>.max-violations` when stored as an integer, 5 when missing |
| Config.GetPunishmentCommand | src/main/java/com/kyssta/redoxguard/config/CheckConfig.java:97-99 | `<check>.punishment` when stored as a string, the kick command when missing |
| Config.GetDoubleValue | src/main/java/com/kyssta/redoxguard/config/CheckConfig.java:125-127 | a missing path gives the default |
| Config.GetLong | src/main/java/com/kyssta/redoxguard/config/CheckConfig.java:153-155 | a missing path gives the default |
| Config.EmptyConfigDefaults | src/main/java/com/kyssta/redoxguard/config/CheckConfig.java:66-169 | with nothing stored, enabled is true, max-violations is 5, the punishment is the kick, and every numeric getter returns its default |
| Config.LookupIgnoresOtherPaths | src/main/java/com/kyssta/redoxguard/config/CheckConfig.java:139-169 | storing a value under another path never changes what a lookup returns |
| Latency.Compensation | src/main/java/com/kyssta/redoxguard/checks/combat/AutoAnchorCheck.java:68-69 | `min(ping / k, cap)`: at most the cap, the quotient and the ping, and equal to the cap or the quotient |
| Latency.HalfPing | src/main/java/com/kyssta/redoxguard/checks/player/FastPlaceCheck.java:67-68 | `min(ping / 2, cap)`: at most the cap and half the ping, and equal to the cap or `ping / 2` |
| Latency.FullPing | src/main/java/com/kyssta/redoxguard/checks/player/FastBreakCheck.java:67-68 | `min(ping, cap)` is the cap or the ping, and at most both |
| Latency.RealCompensation | src/main/java/com/kyssta/redoxguard/checks/combat/ReachCheck.java:51 | `min(ping / d, cap)` on doubles lies in [0, cap], is at most the quotient, and is the cap or the quotient |
| Latency.CompensationMonotone | src/main/java/com/kyssta/redoxguard/checks/combat/AutoAnchorCheck.java:68-69 | more ping never gives less compensation |
| Latency.CompensationSaturates | src/main/java/com/kyssta/redoxguard/checks/combat/AutoAnchorCheck.java:68-69 | from `k * cap` on, the compensation is exactly the cap |
| Latency.RealCompensationMonotone | src/main/java/com/kyssta/redoxguard/checks/combat/HitboxCheck.java:51 | the double compensation is non-decreasing in ping |
| Latency.LagOnlyForgives | src/main/java/com/kyssta/redoxguard/checks/combat/AutoAnchorCheck.java:72 | an interval too short for a laggy player is too short for one with less ping, and too short with no compensation at all |
| Suspicion.Accumulate | src/main/java/com/kyssta/redoxguard/checks/combat/AutoAnchorCheck.java:257-272 | add one; flag exactly when the new count reaches the threshold, and then reset to 0; the stored count stays below a positive threshold |
| Suspicion.Sticky | src/main/java/com/kyssta/redoxguard/checks/combat/ReachCheck.java:55-70 | a suspicious sample adds one and flags exactly when the count before it was at the limit; a clean one takes one off, floored at 0, and never flags |
| Suspicion.Streak | src/main/java/com/kyssta/redoxguard/checks/combat/AdvancedTriggerBotCheck.java:58-73 | a suspicious sample adds one and flags when the new count reaches the threshold; a clean one resets to 0 |
| Suspicion.AccumulateRunClosedForm | src/main/java/com/kyssta/redoxguard/checks/combat/AutoAnchorCheck.java:257-272 | after k suspicious samples, the starting count plus k equals the flags times the threshold plus the final count, and the count stays below the threshold |
| Suspicion.AccumulateEveryThird | src/main/java/com/kyssta/redoxguard/checks/combat/AutoAnchorCheck.java:257-272 | with threshold 3, the third sample flags; seven samples flag twice and leave 1 |
| Suspicion.StickyRunClosedForm | src/main/java/com/kyssta/redoxguard/checks/combat/KillAuraCheck.java:51-63 | k suspicious samples from c end at c + k and flag `max(0, c + k - max(c, limit))` times |
| Suspicion.StickyOnceOverAlwaysFlags | src/main/java/com/kyssta/redoxguard/checks/movement/SpeedCheck.java:70-86 | once the count is at the limit, every further suspicious sample flags: flagging never resets |
| Suspicion.StickyMovesByOne | src/main/java/com/kyssta/redoxguard/checks/movement/FlyCheck.java:72-100 | each sample moves the count by exactly one, up or down |
| Suspicion.StickyDecaysAfterRun | src/main/java/com/kyssta/redoxguard/checks/combat/ReachCheck.java:69 | n suspicious samples from 0 and one clean one leave n - 1 |
| Suspicion.StreakRunClosedForm | src/main/java/com/kyssta/redoxguard/checks/combat/AdvancedTriggerBotCheck.java:58-122 | k suspicious samples from c end at c + k and flag `max(0, c + k - max(c, t - 1))` times |
| Suspicion.Bump | src/main/java/com/kyssta/redoxguard/checks/player/SimulationCheck.java:159-174 | a clean sample changes nothing; a suspicious one writes only that player's counter; at most one flag |
| Suspicion.Nudge | src/main/java/com/kyssta/redoxguard/checks/combat/KillAuraCheck.java:51-63 | only that player's counter is written, and at most one flag is added |
| Suspicion.BumpKeepsBelow | src/main/java/com/kyssta/redoxguard/checks/player/AutoTotemCheck.java:59-69 | with a positive threshold, every stored accumulator count stays below it |
| Suspicion.BumpFlagsAtThreshold | src/main/java/com/kyssta/redoxguard/checks/combat/CrystalAuraCheck.java:254-269 | a bump flags exactly when the count was one short of the threshold, and then stores 0 |
| PlayerState.PlayerData.constructor | src/main/java/com/kyssta/redoxguard/data/PlayerData.java:102-117 | a new record has no levels, no timestamps, no ticks and ping 0, standing where the player is, with the movement time set to now |
| PlayerState.PlayerData.Level | src/main/java/com/kyssta/redoxguard/data/PlayerData.java:148-150 | the stored level, 0 for a check never seen; levels are natural numbers |
| PlayerState.PlayerData.LastViolationTime | src/main/java/com/kyssta/redoxguard/data/PlayerData.java:181-183 | the stored time, 0 for a check never seen |
| PlayerState.PlayerData.AddViolation | src/main/java/com/kyssta/redoxguard/data/PlayerData.java:135-140 | returns the old level + 1, stores exactly that, stamps the time, and no other check's level changes |
| PlayerState.PlayerData.ResetViolations | src/main/java/com/kyssta/redoxguard/data/PlayerData.java:164-166 | that check's level becomes 0; other levels and every timestamp stay |
| PlayerState.PlayerData.UpdateMovement | src/main/java/com/kyssta/redoxguard/data/PlayerData.java:201-216 | wasOnGround is the old onGround, deltaY is the new y minus the old location's y, and exactly one of the tick counters grew by one while the other is 0; the ground location moves only on the ground |
| PlayerState.PlayerData.UpdateCombat | src/main/java/com/kyssta/redoxguard/data/PlayerData.java:231-241 | past the window the count restarts at 1 with a window ending 1000 ms later, otherwise it grows by one; the count is at least 1 and the attack time is now |
| PlayerState.PlayerData.UpdatePing | src/main/java/com/kyssta/redoxguard/data/PlayerData.java:255-258 | the ping is the sample, with no averaging |
| PlayerState.ViolationsThenReset | src/main/java/com/kyssta/redoxguard/data/PlayerData.java:135-166 | two violations yield 1 then 2; a reset returns to 0, leaves the other check alone and keeps the last timestamp |
| PlayerStore.PlayerDataManager.RecordFor | src/main/java/com/kyssta/redoxguard/managers/PlayerDataManager.java:84-86 | the player's record as a footprint, empty when there is none |
| PlayerStore.PlayerDataManager.constructor | src/main/java/com/kyssta/redoxguard/managers/PlayerDataManager.java:46-48 | the store starts empty |
| PlayerStore.PlayerDataManager.CreateData | src/main/java/com/kyssta/redoxguard/managers/PlayerDataManager.java:67-72 | a fresh record is stored under the UUID, replacing any earlier one, and returned; the count grows by one only for a new player |
| PlayerStore.PlayerDataManager.GetPlayerData | src/main/java/com/kyssta/redoxguard/managers/PlayerDataManager.java:84-86 | null exactly when no record exists, otherwise the stored record |
| PlayerStore.PlayerDataManager.GetOrCreate | src/main/java/com/kyssta/redoxguard/managers/PlayerDataManager.java:104-110 | an existing record is returned with the store unchanged; otherwise exactly one fresh record is added; never null |
| PlayerStore.PlayerDataManager.RemoveData | src/main/java/com/kyssta/redoxguard/managers/PlayerDataManager.java:128-131 | afterwards the lookup is null for that UUID and every other player's record is the same object |
| PlayerStore.PlayerDataManager.GetPlayerCount | src/main/java/com/kyssta/redoxguard/managers/PlayerDataManager.java:170-172 | the number of distinct UUIDs stored |
| PlayerStore.PlayerDataManager.SaveAllData | src/main/java/com/kyssta/redoxguard/managers/PlayerDataManager.java:148-152 | reports the number of records and changes nothing |
| PlayerStore.JoinThenQuit | src/main/java/com/kyssta/redoxguard/managers/PlayerDataManager.java:104-131 | a join creates a record, and a quit leaves the store as it was before |
| Checks.Check.constructor | src/main/java/com/kyssta/redoxguard/checks/Check.java:57-67 | name and type as given; enabled is true without a category config, otherwise isCheckEnabled of the lower-cased name |
| Checks.Check.GetName | src/main/java/com/kyssta/redoxguard/checks/Check.java:126-128 | the name fixed at construction |
| Checks.Check.GetType | src/main/java/com/kyssta/redoxguard/checks/Check.java:135-137 | the category fixed at construction |
| Checks.Check.IsEnabled | src/main/java/com/kyssta/redoxguard/checks/Check.java:144-146 | the current enabled flag |
| Checks.Check.SetEnabled | src/main/java/com/kyssta/redoxguard/checks/Check.java:156-158 | the flag becomes b and nothing else in the check changes |
| Checks.Check.Debug | src/main/java/com/kyssta/redoxguard/checks/Check.java:117-119 | produces the prefixed log line and changes no state |
| Checks.ToggleTwice | src/main/java/com/kyssta/redoxguard/checks/Check.java:144-158 | setting the flag off and back restores it, and only the check object may change |
| Manager.Registered | src/main/java/com/kyssta/redoxguard/managers/CheckManager.java:77-106 | 14 detectors with the respawn anchor, 13 without; AutoAnchor is present exactly when the anchor exists; AdvancedTriggerBot is never registered |
| Manager.Entries | src/main/java/com/kyssta/redoxguard/managers/CheckManager.java:113-116 | the name and category of each registered check, position by position |
| Manager.OfTypeMembers | src/main/java/com/kyssta/redoxguard/managers/CheckManager.java:140-148 | the filtered list holds exactly the registered checks whose category matches ignoring case, and no more than there are |
| Manager.OfType | src/main/java/com/kyssta/redoxguard/managers/CheckManager.java:140-148 | the filtered list is no longer than the registry and every check in it has the category, ignoring case |
| Manager.PunishmentCommand | src/main/java/com/kyssta/redoxguard/managers/CheckManager.java:197-199 | the configured command with `%player%` replaced; a command with no `%` character is dispatched unchanged |
| Manager.FirstNamed | src/main/java/com/kyssta/redoxguard/managers/CheckManager.java:156-163 | the index of the first check whose name matches ignoring case; none exactly when no check matches |
| Manager.FirstNamedIsFirst | src/main/java/com/kyssta/redoxguard/managers/CheckManager.java:156-163 | a match at an index bounds the first match from above |
| Manager.Escalate | src/main/java/com/kyssta/redoxguard/managers/CheckManager.java:186-206 | punished exactly when the new level reaches the maximum and the player lacks bypass; then 0 is stored, otherwise the incremented level |
| Manager.StoredBelowMax | src/main/java/com/kyssta/redoxguard/managers/CheckManager.java:195-206 | for a player without bypass and a maximum of at least 1, the stored level stays below the maximum |
| Manager.EscalateRunClosedForm | src/main/java/com/kyssta/redoxguard/managers/CheckManager.java:186-206 | after k violations from 0, k equals the punishments times the maximum plus the final level, which is below the maximum |
| Manager.BypassNeverPunished | src/main/java/com/kyssta/redoxguard/managers/CheckManager.java:195 | a player with bypass is never punished, and the level only climbs |
| Manager.EscalationWithMaxThree | src/main/java/com/kyssta/redoxguard/managers/CheckManager.java:186-206 | with maximum 3, successive violations store 1, 2, then 0 with a punishment, then 1 |
| Manager.DefaultPunishmentKicks | src/main/java/com/kyssta/redoxguard/managers/CheckManager.java:197-199 | with the default configuration the command is `kick <name> [RedoxGuard] Unfair advantage` |
| Manager.CheckManager.constructor | src/main/java/com/kyssta/redoxguard/managers/CheckManager.java:59-62 | registration yields exactly the fixed list, with an empty log and outbox |
| Manager.CheckManager.RegisterCheck | src/main/java/com/kyssta/redoxguard/managers/CheckManager.java:113-116 | the check is appended at the end |
| Manager.CheckManager.RegisterMovementChecks | src/main/java/com/kyssta/redoxguard/managers/CheckManager.java:79-80 | Speed, then Fly, are appended |
| Manager.CheckManager.RegisterCombatChecks | src/main/java/com/kyssta/redoxguard/managers/CheckManager.java:83-86 | Reach, KillAura, Hitbox and AutoCrystal are appended in that order |
| Manager.CheckManager.RegisterAnchorCheck | src/main/java/com/kyssta/redoxguard/managers/CheckManager.java:89-93 | AutoAnchor is appended only when the respawn anchor exists |
| Manager.CheckManager.RegisterLateCombatChecks | src/main/java/com/kyssta/redoxguard/managers/CheckManager.java:95-96 | CrystalAura, then TriggerBot, are appended |
| Manager.CheckManager.RegisterPlayerChecks | src/main/java/com/kyssta/redoxguard/managers/CheckManager.java:99-103 | Inventory, FastBreak, FastPlace, AutoTotem and Simulation are appended in that order |
| Manager.CheckManager.GetChecksOfType | src/main/java/com/kyssta/redoxguard/managers/CheckManager.java:140-148 | the loop returns exactly the filtered list, in registration order |
| Manager.CheckManager.GetCheckByName | src/main/java/com/kyssta/redoxguard/managers/CheckManager.java:156-163 | null exactly when no name matches ignoring case, otherwise the first matching check |
| Manager.CheckManager.HandleViolation | src/main/java/com/kyssta/redoxguard/managers/CheckManager.java:184-207 | logs the level raised by one; stores the escalated level under the check's name with the maximum looked up by the lower-cased name; queues the command with `%player%` replaced exactly when punished; other players and other checks are untouched |
| Manager.CheckManager.Flag | src/main/java/com/kyssta/redoxguard/checks/Check.java:84-90 | a disabled check or a bypassing player changes nothing; otherwise exactly one handleViolation: p's level for the check escalates, the violation is logged, the punishment is queued at the maximum, and other players' records, p's other levels and the registry stay as they were |
| Manager.RecordViolation | src/main/java/com/kyssta/redoxguard/managers/CheckManager.java:186-205 | add one, then reset when punished: the stored level is the escalated one and other checks keep theirs |
| Webhook.EscapeJsonChar | src/main/java/com/kyssta/redoxguard/utils/WebhookUtil.java:127-129 | on one character, the three replacements give its escape |
| Webhook.EscapeJson | src/main/java/com/kyssta/redoxguard/utils/WebhookUtil.java:127-129 | the three replacements equal the per-character JSON escape of backslash, quote and newline |
| Webhook.ReplaceChainIsOnePass | src/main/java/com/kyssta/redoxguard/utils/WebhookUtil.java:127-129 | since backslashes go first, the three `replace` passes equal the one-pass, per-character escape |
| Webhook.EscapeLength | src/main/java/com/kyssta/redoxguard/utils/WebhookUtil.java:128 | the output is longer than the input by the number of backslashes, quotes and newlines |
| Webhook.EscapePlainText | src/main/java/com/kyssta/redoxguard/utils/WebhookUtil.java:128 | text without those three characters is returned unchanged |
| Webhook.EscapeIsSafe | src/main/java/com/kyssta/redoxguard/utils/WebhookUtil.java:128 | the output holds no raw newline, and each quote directly follows a backslash |
| Webhook.UnescapeEscape | src/main/java/com/kyssta/redoxguard/utils/WebhookUtil.java:127-129 | a JSON string decoder recovers the original text from the escape |
| Webhook.EscapeValidExactly | src/main/java/com/kyssta/redoxguard/utils/WebhookUtil.java:120-129 | the escape is a valid JSON string (section 7 of RFC 8259) exactly when the text holds no control character other than a newline |
| Webhook.EscapeJsonLeavesTab | src/main/java/com/kyssta/redoxguard/utils/WebhookUtil.java:127-129 | as written, a tab passes through unescaped, so the JSON string it lands in is invalid |
| Webhook.HexDigit | src/main/java/com/kyssta/redoxguard/utils/WebhookUtil.java:127-129 | the digit's hexadecimal value is n, for the `\u00XX` form of the corrected escape |
| Webhook.EscapeCharStrictStep | src/main/java/com/kyssta/redoxguard/utils/WebhookUtil.java:127-129 | one strict escape in front of a valid JSON string keeps it valid and decodes to its character |
| Webhook.EscapeStrict | src/main/java/com/kyssta/redoxguard/utils/WebhookUtil.java:120-129 | the corrected escape is always a valid JSON string, decodes back to the text, and equals the source's escape whenever that one is valid |
| Webhook.AlertMessage | src/main/java/com/kyssta/redoxguard/utils/WebhookUtil.java:77 | the line `<player> failed <check> <details> (VL: <vl>)` is longer than its fixed prefix |
| Webhook.Payload | src/main/java/com/kyssta/redoxguard/utils/WebhookUtil.java:80-81 | the payload is at least its fixed frame long, and its content field decodes to the message under the model's lenient JSON decoder, whatever characters it holds |
| Webhook.BuildAlert | src/main/java/com/kyssta/redoxguard/utils/WebhookUtil.java:64-81 | no alert exactly when webhooks are disabled or the URL is empty; otherwise it goes to that URL and its content is the alert line |
| AutoAnchor.LastAnchorAction | src/main/java/com/kyssta/redoxguard/checks/combat/AutoAnchorCheck.java:230-234 | the latest of the place, charge and detonate times, each 0 when missing |
| AutoAnchor.AutoAnchorCheck.constructor | src/main/java/com/kyssta/redoxguard/checks/combat/AutoAnchorCheck.java:27-29 | a combat check named AutoAnchor with empty maps |
| AutoAnchor.AutoAnchorCheck.IncrementSuspiciousActions | src/main/java/com/kyssta/redoxguard/checks/combat/AutoAnchorCheck.java:257-272 | one accumulator step for the player, flagging at the threshold (default 3) and resetting |
| AutoAnchor.AutoAnchorCheck.CheckAnchorPlace | src/main/java/com/kyssta/redoxguard/checks/combat/AutoAnchorCheck.java:36-87 | skipped players change nothing; the time and location are always recorded; the first place adds nothing; later, an interval under min-place-time minus `min(ping / 2, 100)` adds exactly one suspicion, near or far |
| AutoAnchor.AutoAnchorCheck.CheckAnchorCharge | src/main/java/com/kyssta/redoxguard/checks/combat/AutoAnchorCheck.java:94-142 | the charge time is recorded; its own interval and the place-to-charge gap can each add one suspicion |
| AutoAnchor.AutoAnchorCheck.CheckAnchorDetonate | src/main/java/com/kyssta/redoxguard/checks/combat/AutoAnchorCheck.java:149-197 | the detonate time is recorded; its own interval and the charge-to-detonate gap can each add one suspicion |
| AutoAnchor.AutoAnchorCheck.CheckItemSwitch | src/main/java/com/kyssta/redoxguard/checks/combat/AutoAnchorCheck.java:204-250 | only anchor, glowstone and sword items count, only after an anchor action, and nothing is recorded |
| AutoCrystal.AutoCrystalCheck.constructor | src/main/java/com/kyssta/redoxguard/checks/combat/AutoCrystalCheck.java:27-29 | a combat check named AutoCrystal with empty maps |
| AutoCrystal.AutoCrystalCheck.IncrementSuspiciousActions | src/main/java/com/kyssta/redoxguard/checks/combat/AutoCrystalCheck.java:222-237 | one accumulator step, flagging at the threshold (default 3) and resetting |
| AutoCrystal.AutoCrystalCheck.CheckCrystalPlace | src/main/java/com/kyssta/redoxguard/checks/combat/AutoCrystalCheck.java:36-83 | the first place only records; later, an interval under min-place-time (100) minus the compensation adds exactly one suspicion |
| AutoCrystal.AutoCrystalCheck.CheckCrystalBreak | src/main/java/com/kyssta/redoxguard/checks/combat/AutoCrystalCheck.java:90-122 | only crystal breaks count; the first only records; later, an interval under min-break-time (100) minus the compensation is one suspicion |
| AutoCrystal.AutoCrystalCheck.CheckItemSwitch | src/main/java/com/kyssta/redoxguard/checks/combat/AutoCrystalCheck.java:129-169 | only crystals and the three swords count, after a place or break, with a gap under 150 minus the compensation; nothing is recorded |
| AutoCrystal.AutoCrystalCheck.CheckCrystalAngle | src/main/java/com/kyssta/redoxguard/checks/combat/AutoCrystalCheck.java:176-215 | an angle over max-angle (45) at a crystal is one suspicion |
| CrystalAura.CrystalAuraCheck.constructor | src/main/java/com/kyssta/redoxguard/checks/combat/CrystalAuraCheck.java:29-31 | a combat check named CrystalAura with empty maps |
| CrystalAura.CrystalAuraCheck.IncrementSuspiciousActions | src/main/java/com/kyssta/redoxguard/checks/combat/CrystalAuraCheck.java:254-269 | one accumulator step, flagging at the threshold (default 5) and resetting |
| CrystalAura.CrystalAuraCheck.CheckPlacementAngle | src/main/java/com/kyssta/redoxguard/checks/combat/CrystalAuraCheck.java:171-195 | an angle over max-place-angle (30) is one suspicion |
| CrystalAura.CrystalAuraCheck.CheckBreakAngle | src/main/java/com/kyssta/redoxguard/checks/combat/CrystalAuraCheck.java:202-227 | an angle over max-break-angle (45) is one suspicion |
| CrystalAura.CrystalAuraCheck.CheckCrystalPlace | src/main/java/com/kyssta/redoxguard/checks/combat/CrystalAuraCheck.java:38-88 | the first place only records; a rapid place far from the previous one adds one suspicion and skips the angle test; any other later place runs the angle test |
| CrystalAura.CrystalAuraCheck.TrackSequence | src/main/java/com/kyssta/redoxguard/checks/combat/CrystalAuraCheck.java:104-135 | a place-to-break gap under 50 minus the compensation raises the sequence count, which at its threshold (3) adds one suspicion and resets; a normal gap resets it |
| CrystalAura.CrystalAuraCheck.CheckCrystalBreak | src/main/java/com/kyssta/redoxguard/checks/combat/CrystalAuraCheck.java:95-164 | only crystal breaks count; the place times are never changed; the first break records and returns before the angle test |
| CrystalAura.CrystalAuraCheck.CheckObsidianCrystalSequence | src/main/java/com/kyssta/redoxguard/checks/combat/CrystalAuraCheck.java:234-247 | never flags and changes no state |
| FastBreak.EstimateBreakTime | src/main/java/com/kyssta/redoxguard/checks/player/FastBreakCheck.java:88-120 | never below the base; the base for instant blocks and hardness at most 0; otherwise `max(trunc(hardness * 1500), base)`, lowered only with Efficiency on a suitable tool |
| FastBreak.EfficiencyNeverSlows | src/main/java/com/kyssta/redoxguard/checks/player/FastBreakCheck.java:111-113 | dividing by `1 + 0.25 * efficiency` never lengthens the time |
| FastBreak.IsInstantBreak | src/main/java/com/kyssta/redoxguard/checks/player/FastBreakCheck.java:127-167 | the torches, grasses, ferns and basic flowers always break instantly; cornflower, lily of the valley and wither rose exactly when the server version has them; nothing else |
| FastBreak.IsCorrectToolAsWritten | src/main/java/com/kyssta/redoxguard/checks/player/FastBreakCheck.java:174-226 | as written, any tool whose name contains `PICKAXE` counts as suitable for a wood-only block |
| FastBreak.MinBreakTimeAsWritten | src/main/java/com/kyssta/redoxguard/checks/player/FastBreakCheck.java:88-120 | the minimum under the source's `contains("AXE")` rule is never above the minimum under the corrected rule |
| FastBreak.CorrectedRuleIsNarrower | src/main/java/com/kyssta/redoxguard/checks/player/FastBreakCheck.java:174-226 | every tool the corrected rule accepts the source's rule accepts, and the two rules agree outside the wood-only blocks |
| FastBreak.MinBreakTimeBounds | src/main/java/com/kyssta/redoxguard/checks/player/FastBreakCheck.java:88-120 | under both tool rules: at least base-min-time (150), exactly that for instant blocks, and Efficiency never raises it |
| FastBreak.PickaxeIsNoAxe | src/main/java/com/kyssta/redoxguard/checks/player/FastBreakCheck.java:174-226 | under the corrected rule, a pickaxe never suits a wood-only block |
| FastBreak.PickaxeOnLogAsWritten | src/main/java/com/kyssta/redoxguard/checks/player/FastBreakCheck.java:174-226 | as written, a diamond pickaxe with Efficiency V cuts an oak log's minimum from 3000 ms to 1333 ms |
| FastBreak.QuickSecondBlockFlags | src/main/java/com/kyssta/redoxguard/checks/player/FastBreakCheck.java:71-78 | 50 ms after the last break with a 150 ms minimum flags, but not for the same block or with 300 ms of ping |
| FastBreak.FastBreakCheck.constructor | src/main/java/com/kyssta/redoxguard/checks/player/FastBreakCheck.java:25-27 | a player check named FastBreak with empty maps |
| FastBreak.FastBreakCheck.CheckBlockBreak | src/main/java/com/kyssta/redoxguard/checks/player/FastBreakCheck.java:34-80 | the first break only records; later ones record the time and block, then flag directly exactly when the interval is under the minimum as written (with the `contains("AXE")` tool rule) less `min(ping, 300)` and the block differs |
| FastPlace.MinPlaceTime | src/main/java/com/kyssta/redoxguard/checks/player/FastPlaceCheck.java:62-80 | a crystal, as this or the previous placement, gives min-crystal-time (100); otherwise an end portal frame gives min-special-time (100); otherwise min-place-time (50) |
| FastPlace.MinPlaceTimeSymmetric | src/main/java/com/kyssta/redoxguard/checks/player/FastPlaceCheck.java:62-80 | the minimum depends on the two materials, not on which was placed first |
| FastPlace.PlaceLagOnlyForgives | src/main/java/com/kyssta/redoxguard/checks/player/FastPlaceCheck.java:67-72 | a placement too fast for a laggy player is too fast with less ping, and with none |
| FastPlace.DefaultIntervals | src/main/java/com/kyssta/redoxguard/checks/player/FastPlaceCheck.java:62-86 | with defaults, 60 ms between stone is clean, after or before a crystal or frame it flags, and 200 ms of ping forgives it |
| FastPlace.FastPlaceCheck.constructor | src/main/java/com/kyssta/redoxguard/checks/player/FastPlaceCheck.java:23-25 | a player check named FastPlace with empty maps |
| FastPlace.FastPlaceCheck.CheckBlockPlace | src/main/java/com/kyssta/redoxguard/checks/player/FastPlaceCheck.java:32-87 | exempt players change nothing; the first place only records; later ones record, then flag directly exactly when the interval is under the minimum less `min(ping / 2, 100)` |
| FastPlace.FastPlaceCheck.CheckCrystalPlace | src/main/java/com/kyssta/redoxguard/checks/player/FastPlaceCheck.java:93-129 | shares the time map, records END_CRYSTAL as the last type, uses the crystal minimum, and has no creative exemption |
| AutoTotem.AutoTotemCheck.constructor | src/main/java/com/kyssta/redoxguard/checks/player/AutoTotemCheck.java:23-25 | a player check named AutoTotem with empty maps |
| AutoTotem.AutoTotemCheck.IncrementSuspicious | src/main/java/com/kyssta/redoxguard/checks/player/AutoTotemCheck.java:59-69 | one accumulator step on the shared counter, flagging at the threshold (3) and resetting |
| AutoTotem.AutoTotemCheck.CheckTotemEquip | src/main/java/com/kyssta/redoxguard/checks/player/AutoTotemCheck.java:31-73 | the equip time is always recorded; an equip after a damage time with a gap under min-reaction-time (150) minus `min(ping, 200)` is one suspicion |
| AutoTotem.AutoTotemCheck.RecordDamage | src/main/java/com/kyssta/redoxguard/checks/player/AutoTotemCheck.java:79-82 | the damage time is recorded, whatever the check's state and the player's permissions |
| AutoTotem.AutoTotemCheck.CheckTotemPop | src/main/java/com/kyssta/redoxguard/checks/player/AutoTotemCheck.java:88-122 | acts only with a totem in the off hand: flags directly when the gap is under min-pop-time (50) minus `min(ping, 100)`, then records the equip |
| AutoTotem.AutoTotemCheck.CheckInventoryTotemAction | src/main/java/com/kyssta/redoxguard/checks/player/AutoTotemCheck.java:131-170 | a totem moved within 500 ms of the last attack, with no ping allowance, is one suspicion on the shared counter |
| AutoTotem.PopTimingDefaults | src/main/java/com/kyssta/redoxguard/checks/player/AutoTotemCheck.java:100-117 | with no ping, a pop 30 ms after an equip flags and one 80 ms after does not; 100 ms of ping forgives the first |
| AutoTotem.TotemLagOnlyForgives | src/main/java/com/kyssta/redoxguard/checks/player/AutoTotemCheck.java:100-117 | a pop too soon after an equip for a laggy player is too soon with less ping, and with none |
| AutoTotem.EquipLagOnlyForgives | src/main/java/com/kyssta/redoxguard/checks/player/AutoTotemCheck.java:50-58 | an equip too soon after damage, with `min(ping, 200)` allowed, for a laggy player is too soon with less ping, and with none |
| Simulation.MinResponseTime | src/main/java/com/kyssta/redoxguard/checks/player/SimulationCheck.java:52-68 | any unknown event uses min-response-time; with defaults, velocity 80, teleport 150, everything else 100 |
| Simulation.SimulationCheck.constructor | src/main/java/com/kyssta/redoxguard/checks/player/SimulationCheck.java:22-24 | a player check named Simulation with empty maps |
| Simulation.SimulationCheck.IncrementSuspiciousActions | src/main/java/com/kyssta/redoxguard/checks/player/SimulationCheck.java:159-174 | one accumulator step, flagging at the threshold (5) and resetting |
| Simulation.SimulationCheck.CheckResponseTime | src/main/java/com/kyssta/redoxguard/checks/player/SimulationCheck.java:31-79 | one shared action time is always recorded; the first only records; a response under the event's minimum less `min(ping / 2, 100)` is one suspicion |
| Simulation.SimulationCheck.CheckMovementPrediction | src/main/java/com/kyssta/redoxguard/checks/player/SimulationCheck.java:87-120 | outside an event the location is stored; after one, a stored prediction in the same world closer than 0.5 is one suspicion and is removed either way; none stored means no change |
| Simulation.SimulationCheck.CheckDamageResponse | src/main/java/com/kyssta/redoxguard/checks/player/SimulationCheck.java:126-128 | a response to the damage event |
| Simulation.SimulationCheck.CheckKnockbackResponse | src/main/java/com/kyssta/redoxguard/checks/player/SimulationCheck.java:134-136 | a response to the knockback event |
| Simulation.SimulationCheck.CheckVelocityResponse | src/main/java/com/kyssta/redoxguard/checks/player/SimulationCheck.java:142-144 | a response to the velocity event |
| Simulation.SimulationCheck.CheckTeleportResponse | src/main/java/com/kyssta/redoxguard/checks/player/SimulationCheck.java:150-152 | a response to the teleport event |
| Simulation.CloserThanWidens | src/main/java/com/kyssta/redoxguard/checks/player/SimulationCheck.java:104-110 | a larger max-prediction-distance only catches more samples |
| KillAura.KillAuraCheck.constructor | src/main/java/com/kyssta/redoxguard/checks/combat/KillAuraCheck.java:20-22 | a combat check named KillAura with empty maps |
| KillAura.KillAuraCheck.CheckKillAura | src/main/java/com/kyssta/redoxguard/checks/combat/KillAuraCheck.java:29-81 | non-player targets change nothing; the attack time is set to now; a gap under 50 ms and an angle over 60 degrees are each a Sticky sample on one counter, with limits 5 and 3 |
| KillAura.HitMatchesCheck | src/main/java/com/kyssta/redoxguard/checks/combat/KillAuraCheck.java:44-80 | the two counter steps give exactly the counter and flag count of one hit |
| KillAura.CleanHitDecays | src/main/java/com/kyssta/redoxguard/checks/combat/KillAuraCheck.java:61-79 | a slow, on-target hit takes the counter down by two, floored at 0, and never flags |
| KillAura.BlindRapidHitRaisesByTwo | src/main/java/com/kyssta/redoxguard/checks/combat/KillAuraCheck.java:51-73 | a rapid off-target hit raises the counter by two, flagging on each test whose prior count was at its limit |
| KillAura.BlindRapidHitsClosedForm | src/main/java/com/kyssta/redoxguard/checks/combat/KillAuraCheck.java:51-73 | n rapid off-target hits raise the counter by 2n; from 5 on each hit flags twice |
| KillAura.BlindRapidHitsFromZero | src/main/java/com/kyssta/redoxguard/checks/combat/KillAuraCheck.java:51-73 | from 0, n ≥ 3 such hits reach 2n and flag 2n - 4 times |
| TriggerBot.TriggerBotCheck.constructor | src/main/java/com/kyssta/redoxguard/checks/combat/TriggerBotCheck.java:20-22 | a combat check named TriggerBot with empty maps |
| TriggerBot.TriggerBotCheck.CheckTriggerBot | src/main/java/com/kyssta/redoxguard/checks/combat/TriggerBotCheck.java:29-69 | non-player targets change nothing; not looking (angle of 2 degrees or more) takes one off; looking records the hit time, and a gap under 50 ms adds one and flags when the prior count was at 5; a slower look leaves the count |
| TriggerBot.RapidPreciseHits | src/main/java/com/kyssta/redoxguard/checks/combat/TriggerBotCheck.java:52-62 | n rapid precise hits from 0 reach n and flag `max(0, n - 5)` times |
| TriggerBot.ImpreciseHitDecays | src/main/java/com/kyssta/redoxguard/checks/combat/TriggerBotCheck.java:66-68 | a miss-aimed hit never flags and leaves the counter one lower, floored at 0 |
| AdvancedTriggerBot.CalculateVariance | src/main/java/com/kyssta/redoxguard/checks/combat/AdvancedTriggerBotCheck.java:152-167 | the two loops compute the integer variance: integer mean, integer sum of squared deviations, integer quotient |
| AdvancedTriggerBot.Variance | src/main/java/com/kyssta/redoxguard/checks/combat/AdvancedTriggerBotCheck.java:152-167 | the variance is never negative and is 0 for fewer than two samples |
| AdvancedTriggerBot.ConstantRhythmHasNoVariance | src/main/java/com/kyssta/redoxguard/checks/combat/AdvancedTriggerBotCheck.java:152-167 | equal samples have variance 0, with the truncating division |
| AdvancedTriggerBot.Initial | src/main/java/com/kyssta/redoxguard/checks/combat/AdvancedTriggerBotCheck.java:172-181 | a new record is well formed: ten slots, index 0, nothing counted |
| AdvancedTriggerBot.Updated | src/main/java/com/kyssta/redoxguard/checks/combat/AdvancedTriggerBotCheck.java:183-196 | updateAttack keeps the record well formed, sets the last attack to `now`, adds one attack and leaves the four suspicion counters alone |
| AdvancedTriggerBot.TriggerBotData.constructor | src/main/java/com/kyssta/redoxguard/checks/combat/AdvancedTriggerBotCheck.java:172-181 | a new data object with a fresh ten-slot buffer and the initial state |
| AdvancedTriggerBot.TriggerBotData.UpdateAttack | src/main/java/com/kyssta/redoxguard/checks/combat/AdvancedTriggerBotCheck.java:183-196 | the new state is the specified update: only slot attackIndex is written and the index advances mod 10 |
| AdvancedTriggerBot.AdvancedTriggerBotCheck.constructor | src/main/java/com/kyssta/redoxguard/checks/combat/AdvancedTriggerBotCheck.java:23-25 | a combat check named AdvancedTriggerBot with no records |
| AdvancedTriggerBot.AdvancedTriggerBotCheck.CheckReactionTime | src/main/java/com/kyssta/redoxguard/checks/combat/AdvancedTriggerBotCheck.java:58-73 | a reaction under 50 ms is a Streak sample with threshold 3 |
| AdvancedTriggerBot.AdvancedTriggerBotCheck.CheckAimPrecision | src/main/java/com/kyssta/redoxguard/checks/combat/AdvancedTriggerBotCheck.java:78-98 | an aim under 1 degree is a Streak sample with threshold 5 |
| AdvancedTriggerBot.AdvancedTriggerBotCheck.CheckAttackPattern | src/main/java/com/kyssta/redoxguard/checks/combat/AdvancedTriggerBotCheck.java:103-122 | a buffer variance under 1000 is a Streak sample with threshold 3 |
| AdvancedTriggerBot.AdvancedTriggerBotCheck.CheckTargetTracking | src/main/java/com/kyssta/redoxguard/checks/combat/AdvancedTriggerBotCheck.java:127-147 | an attack from 2.5 to 3.5 blocks counts as optimal; flags when at least 10 are optimal and more than 80% of all attacks are |
| AdvancedTriggerBot.AdvancedTriggerBotCheck.CheckTriggerBot | src/main/java/com/kyssta/redoxguard/checks/combat/AdvancedTriggerBotCheck.java:32-53 | skipped players and non-player targets change nothing; otherwise the player's record becomes one specified attack step and the flags are its flags |
| AdvancedTriggerBot.Attack | src/main/java/com/kyssta/redoxguard/checks/combat/AdvancedTriggerBotCheck.java:45-52 | an attack keeps the record well formed (index in [0, 10), optimal ≤ total), adds exactly one attack at `now`, and flags at most four times |
| AdvancedTriggerBot.ReactionTimeRule | src/main/java/com/kyssta/redoxguard/checks/combat/AdvancedTriggerBotCheck.java:186-190 | the reaction time is now minus the last attack only when there was one; otherwise it keeps its value |
| AdvancedTriggerBot.InitialHoldsNothing | src/main/java/com/kyssta/redoxguard/checks/combat/AdvancedTriggerBotCheck.java:180-181 | a new buffer holds the empty history |
| AdvancedTriggerBot.UpdatedRecords | src/main/java/com/kyssta/redoxguard/checks/combat/AdvancedTriggerBotCheck.java:194-195 | each update appends the new reaction time to the history the ring holds |
| AdvancedTriggerBot.BufferHoldsLastTen | src/main/java/com/kyssta/redoxguard/checks/combat/AdvancedTriggerBotCheck.java:180-195 | each of the last ten reaction times sits at its index mod 10 |
| AdvancedTriggerBot.FirstAttackLooksRobotic | src/main/java/com/kyssta/redoxguard/checks/combat/AdvancedTriggerBotCheck.java:58-122 | the first attack has reaction time 0 and a zero buffer, so it counts as a suspicious reaction and a consistent pattern |
| AdvancedTriggerBot.EvenRhythmIsSuspicious | src/main/java/com/kyssta/redoxguard/checks/combat/AdvancedTriggerBotCheck.java:103-122 | a buffer of equal times always counts as a consistent pattern |
| AdvancedTriggerBot.MostlyOptimalByCounts | src/main/java/com/kyssta/redoxguard/checks/combat/AdvancedTriggerBotCheck.java:138 | the ratio over 0.8 holds exactly when 5 × optimal > 4 × total |
| AdvancedTriggerBot.TrackingNeedsTen | src/main/java/com/kyssta/redoxguard/checks/combat/AdvancedTriggerBotCheck.java:127-147 | the tracking test flags only with at least 10 optimal attacks and above the 4 : 1 ratio |
| Fly.MaxJumpHeight | src/main/java/com/kyssta/redoxguard/checks/movement/FlyCheck.java:62-69 | 0.6 + 0.15 per Jump Boost level + 0.2: at least 0.8, exactly 0.8 without Jump Boost |
| Fly.JumpTestIsTheAllowance | src/main/java/com/kyssta/redoxguard/checks/movement/FlyCheck.java:59-70 | the 0.6 pre-test never decides: the jump test is leaving the ground above the allowance |
| Fly.JumpBoostOnlyForgives | src/main/java/com/kyssta/redoxguard/checks/movement/FlyCheck.java:62-70 | a stronger Jump Boost never makes a jump suspicious that a weaker one allowed |
| Fly.FlyCheck.constructor | src/main/java/com/kyssta/redoxguard/checks/movement/FlyCheck.java:22-24 | a movement check named Fly with empty maps |
| Fly.FlyCheck.CheckFlight | src/main/java/com/kyssta/redoxguard/checks/movement/FlyCheck.java:31-102 | flying-allowed, creative and spectator players and samples within 1000 ms change nothing; otherwise the time is recorded before the water, climbing and vehicle exemption; the jump and hover tests step one Sticky counter |
| Fly.SampleMatchesCheck | src/main/java/com/kyssta/redoxguard/checks/movement/FlyCheck.java:71-101 | the two counter steps give exactly one sample's counter and flags |
| Fly.HighJumpAloneCancels | src/main/java/com/kyssta/redoxguard/checks/movement/FlyCheck.java:71-101 | a too-high jump that is not hovering adds one and takes it off again, flagging when the prior count was at 3 |
| Fly.HoverRunClosedForm | src/main/java/com/kyssta/redoxguard/checks/movement/FlyCheck.java:87-101 | hovering samples follow the Sticky policy with limit 5 |
| Fly.HoverFlagsFromZero | src/main/java/com/kyssta/redoxguard/checks/movement/FlyCheck.java:87-101 | from 0, n hovering samples reach n and flag `max(0, n - 5)` times |
| Speed.HorizontalDistanceSquared | src/main/java/com/kyssta/redoxguard/checks/movement/SpeedCheck.java:51-53 | the squared horizontal step is never negative |
| Speed.BaseSpeed | src/main/java/com/kyssta/redoxguard/checks/movement/SpeedCheck.java:96-101 | 0.35 walking, 0.45 sprinting |
| Speed.SpeedFactor | src/main/java/com/kyssta/redoxguard/checks/movement/SpeedCheck.java:103-107 | 30% per Speed level: at least 1, exactly 1 without the effect |
| Speed.SlowFactor | src/main/java/com/kyssta/redoxguard/checks/movement/SpeedCheck.java:109-113 | 10% off per Slowness level, kept in [0, 1]; equal to the source's factor up to level 10 |
| Speed.SlowFactorAsWritten | src/main/java/com/kyssta/redoxguard/checks/movement/SpeedCheck.java:109-113 | `1 - 0.1 * level`: in [0, 1] up to Slowness 10, negative from 11 |
| Speed.MaxAllowedSpeedAsWritten | src/main/java/com/kyssta/redoxguard/checks/movement/SpeedCheck.java:94-119 | the unclamped maximum is non-negative up to Slowness 10 and negative from 11 |
| Speed.MaxAllowedSpeed | src/main/java/com/kyssta/redoxguard/checks/movement/SpeedCheck.java:94-119 | never negative, and equal to the source's value whenever Slowness is at most 10 |
| Speed.LimitNonNegative | src/main/java/com/kyssta/redoxguard/checks/movement/SpeedCheck.java:94-119 | the base speed times the two factors times the 1.2 buffer is never negative when the factors are not |
| Speed.LimitSpeedOrder | src/main/java/com/kyssta/redoxguard/checks/movement/SpeedCheck.java:94-119 | the limit grows with the Speed factor |
| Speed.LimitSlowOrder | src/main/java/com/kyssta/redoxguard/checks/movement/SpeedCheck.java:94-119 | the limit grows with the Slowness factor, so a smaller factor never raises it |
| Speed.LimitSign | src/main/java/com/kyssta/redoxguard/checks/movement/SpeedCheck.java:94-119 | with positive base and Speed factor, the limit has the sign of the Slowness factor |
| Speed.LimitSpeedOrderSquared | src/main/java/com/kyssta/redoxguard/checks/movement/SpeedCheck.java:62-67 | a larger Speed factor never gives a smaller squared limit, whatever the sign of the Slowness factor |
| Speed.SpeedLimitSquared | src/main/java/com/kyssta/redoxguard/checks/movement/SpeedCheck.java:62-67 | the squared unclamped maximum plus the squared `min(ping / 200, 0.5)`: at least the former, at most 0.25 above it, and up to Slowness 10 at least the clamped limit squared |
| Speed.SpeedCheck.constructor | src/main/java/com/kyssta/redoxguard/checks/movement/SpeedCheck.java:19-21 | a movement check named Speed with empty maps |
| Speed.SpeedCheck.CheckSpeed | src/main/java/com/kyssta/redoxguard/checks/movement/SpeedCheck.java:29-87 | exempt players and samples within 500 ms change nothing; a step with squared length under 0.01 only records the time; otherwise being over the unclamped limit as written is a Sticky sample with limit 3 |
| Speed.DefaultLimits | src/main/java/com/kyssta/redoxguard/checks/movement/SpeedCheck.java:94-119 | without effects or ping the limit as written is 0.42 walking and 0.54 sprinting |
| Speed.SlownessNeverLoosens | src/main/java/com/kyssta/redoxguard/checks/movement/SpeedCheck.java:109-113 | with the factor kept non-negative, more Slowness never raises the limit |
| Speed.SlownessTwentyAsWritten | src/main/java/com/kyssta/redoxguard/checks/movement/SpeedCheck.java:109-113 | as written, Slowness 20 while sprinting gives -0.54, whose square equals the limit with no Slowness |
| Speed.SpeedEffectOnlyLoosens | src/main/java/com/kyssta/redoxguard/checks/movement/SpeedCheck.java:103-107 | a stronger Speed effect only loosens the squared limit, both as written (any Slowness) and clamped |
| Speed.SpeedEffectNeverFlagsMore | src/main/java/com/kyssta/redoxguard/checks/movement/SpeedCheck.java:62-70 | a step too fast under a stronger Speed effect is too fast under a weaker one |
| Speed.SlownessUpToTenNeverLoosens | src/main/java/com/kyssta/redoxguard/checks/movement/SpeedCheck.java:109-113 | up to Slowness 10, more Slowness never raises the limit as written |
| Speed.SlownessTwentyStepAccepted | src/main/java/com/kyssta/redoxguard/checks/movement/SpeedCheck.java:62-70 | as written, a 0.3-block sprinting step under Slowness 20 is accepted, though it exceeds the clamped limit |
| Speed.SpeedLagOnlyForgives | src/main/java/com/kyssta/redoxguard/checks/movement/SpeedCheck.java:62-70 | a step too long for a laggy player is too long for one with less ping |
| Reach.TargetCentre | src/main/java/com/kyssta/redoxguard/checks/combat/ReachCheck.java:40-42 | the target's location raised by half its height |
| Reach.MaxReach | src/main/java/com/kyssta/redoxguard/checks/combat/ReachCheck.java:47-52 | `4.5 + min(ping / 100, 1)` lies in [4.5, 5.5]: 4.5 with no ping, 5.5 from 100 ms |
| Reach.ReachCheck.constructor | src/main/java/com/kyssta/redoxguard/checks/combat/ReachCheck.java:18-20 | a combat check named Reach with an empty counter map |
| Reach.ReachCheck.CheckReach | src/main/java/com/kyssta/redoxguard/checks/combat/ReachCheck.java:27-71 | non-player targets change nothing; otherwise a distance over the reach is a Sticky sample with limit 3 |
| Reach.MaxReachMonotone | src/main/java/com/kyssta/redoxguard/checks/combat/ReachCheck.java:47-52 | more ping never shortens the reach |
| Reach.ReachLagOnlyForgives | src/main/java/com/kyssta/redoxguard/checks/combat/ReachCheck.java:47-55 | a hit too far for a laggy attacker is too far for one with less ping |
| Reach.ReachBounds | src/main/java/com/kyssta/redoxguard/checks/combat/ReachCheck.java:47-55 | whatever the ping, more than 5.5 blocks is too far and 4.5 or less is not (so 4.6 at ping 300 is clean) |
| Reach.FourthFarHitFlags | src/main/java/com/kyssta/redoxguard/checks/combat/ReachCheck.java:55-70 | from 0, n hits too far flag `max(0, n - 3)` times: the fourth is the first |
| Hitbox.Expand | src/main/java/com/kyssta/redoxguard/checks/combat/HitboxCheck.java:37 | every face of the box moves out by the amount |
| Hitbox.EndPoint | src/main/java/com/kyssta/redoxguard/checks/combat/HitboxCheck.java:40-45 | the eye moved distance blocks along the direction, in the same world |
| Hitbox.PingAllowance | src/main/java/com/kyssta/redoxguard/checks/combat/HitboxCheck.java:51 | `min(ping / 100, 0.5)` lies in [0, 0.5] |
| Hitbox.HitboxCheck.constructor | src/main/java/com/kyssta/redoxguard/checks/combat/HitboxCheck.java:15-17 | a stateless combat check named Hitbox |
| Hitbox.HitboxCheck.CheckHitbox | src/main/java/com/kyssta/redoxguard/checks/combat/HitboxCheck.java:24-66 | flags exactly when the check applies and the end point lies outside both the box grown by expansion-amount (0.3) and that box grown again by the ping allowance |
| Hitbox.ExpandTwice | src/main/java/com/kyssta/redoxguard/checks/combat/HitboxCheck.java:37-57 | growing by e1 and then e2 is growing by e1 + e2 |
| Hitbox.ExpandKeeps | src/main/java/com/kyssta/redoxguard/checks/combat/HitboxCheck.java:54-59 | growing by a non-negative amount keeps every contained point |
| Hitbox.HitsWidens | src/main/java/com/kyssta/redoxguard/checks/combat/HitboxCheck.java:48-64 | a larger margin can only turn a miss into a hit, so a point in the first box never flags |
| Hitbox.HitboxLagOnlyForgives | src/main/java/com/kyssta/redoxguard/checks/combat/HitboxCheck.java:49-64 | a miss for a laggy attacker is a miss for one with less ping |
| Inventory.VelocityLengthSquared | src/main/java/com/kyssta/redoxguard/checks/player/InventoryCheck.java:29 | the squared velocity is never negative |
| Inventory.InventoryCheck.constructor | src/main/java/com/kyssta/redoxguard/checks/player/InventoryCheck.java:12-14 | a stateless player check named Inventory |
| Inventory.InventoryCheck.CheckInventoryClick | src/main/java/com/kyssta/redoxguard/checks/player/InventoryCheck.java:21-37 | flags exactly when the check applies, the squared velocity exceeds 0.01 and the inventory is not CRAFTING |
| Inventory.InventoryCheck.CheckInventorySpeed | src/main/java/com/kyssta/redoxguard/checks/player/InventoryCheck.java:44-63 | flags exactly when the check applies, an attack time exists and the click came under 100 ms after it |
| Inventory.SlowDriftIsStill | src/main/java/com/kyssta/redoxguard/checks/player/InventoryCheck.java:29 | drift of at most 0.05 per axis never counts as movement |
| Inventory.CraftingNeverFlags | src/main/java/com/kyssta/redoxguard/checks/player/InventoryCheck.java:29-30 | the player's own CRAFTING view never flags, at any speed |
| Inventory.FasterStillFlags | src/main/java/com/kyssta/redoxguard/checks/player/InventoryCheck.java:29-30 | a flagged velocity stays flagged when no axis gets slower |
| Inventory.EarlierClickStillTooSoon | src/main/java/com/kyssta/redoxguard/checks/player/InventoryCheck.java:44-63 | a click too soon after an attack is too soon at any earlier time, and no click is too soon before any attack |
| WorldCache.BlockKeyAsWritten | src/main/java/com/kyssta/redoxguard/movement/WorldCache.java:144-148 | as written, a negative z sets all of the top 32 bits, where x belongs |
| WorldCache.BlockKeyAsWrittenCollides | src/main/java/com/kyssta/redoxguard/movement/WorldCache.java:144-148 | as written, blocks (0, 0, -1) and (1, 64, -1) both get the all-ones key |
| WorldCache.BlockKeyAsWrittenInjectiveOnSmall | src/main/java/com/kyssta/redoxguard/movement/WorldCache.java:144-148 | as written, distinct blocks with y and z in [0, 2^16) get distinct keys |
| WorldCache.BlockKeyInjective | src/main/java/com/kyssta/redoxguard/movement/WorldCache.java:144-148 | the corrected key is injective inside the world border and build height |
| WorldCache.BlockKeySeparatesCollision | src/main/java/com/kyssta/redoxguard/movement/WorldCache.java:144-148 | the corrected key tells the colliding pair apart |
| WorldCache.PlayerWorldCache.constructor | src/main/java/com/kyssta/redoxguard/movement/WorldCache.java:66-68 | an empty cache for the player |
| WorldCache.PlayerWorldCache.UpdateBlock | src/main/java/com/kyssta/redoxguard/movement/WorldCache.java:73-77 | the material and the time are stored under getBlockKey's key as written, and the key sets stay equal |
| WorldCache.PlayerWorldCache.GetBlock | src/main/java/com/kyssta/redoxguard/movement/WorldCache.java:82-99 | under getBlockKey's key as written, a hit returns the cached material and changes nothing; a miss stores and returns the world's material with the time |
| WorldCache.PlayerWorldCache.Cleanup | src/main/java/com/kyssta/redoxguard/movement/WorldCache.java:153-163 | exactly the timestamps no older than 300000 ms stay, and then exactly the blocks that still have one |
| WorldCache.ReadAfterWrite | src/main/java/com/kyssta/redoxguard/movement/WorldCache.java:73-88 | a read right after a write at the same block returns the written material, not the world's |
| WorldCache.WriteLeavesOthers | src/main/java/com/kyssta/redoxguard/movement/WorldCache.java:73-98 | for blocks whose y and z lie in [0, 2^16), a write at one block leaves the answer for any other as it was |
| WorldCache.StaleReadAcrossCollision | src/main/java/com/kyssta/redoxguard/movement/WorldCache.java:73-98 | a block written at (0, 0, -1) is the answer read back for (1, 64, -1), whatever the world holds there |
| WorldCache.WorldCache.constructor | src/main/java/com/kyssta/redoxguard/movement/WorldCache.java:24-26 | no player caches |
| WorldCache.WorldCache.GetPlayerCache | src/main/java/com/kyssta/redoxguard/movement/WorldCache.java:31-33 | the stored cache, or a new empty one stored for the player |
| WorldCache.WorldCache.UpdateBlock | src/main/java/com/kyssta/redoxguard/movement/WorldCache.java:38-41 | the material and the time go into the player's cache under the key as written, creating the cache when missing; other caches stay |
| WorldCache.WorldCache.GetBlock | src/main/java/com/kyssta/redoxguard/movement/WorldCache.java:46-49 | the read of the player's cache, creating it when missing: a hit leaves both of its maps as they were, a miss stores the world's material and the time |
| WorldCache.WorldCache.RemovePlayerCache | src/main/java/com/kyssta/redoxguard/movement/WorldCache.java:54-56 | the player's cache is dropped and no other |
| WorldCache.SameCacheUntilRemoved | src/main/java/com/kyssta/redoxguard/movement/WorldCache.java:31-56 | the same cache object comes back until it is removed, then a new one |

## Left out

- Console and chat output (`LogUtil`), the debug log text and the staff broadcast: a violation becomes a `Violation` record appended to `log`.
- The HTTP request of `sendWebhookAlert` (src/main/java/com/kyssta/redoxguard/utils/WebhookUtil.java:84-107): network I/O on a background future. The model stops at the built URL and payload.
- The Bukkit scheduler that runs the punishment command: the resolved command is appended to `outbox`.
- `Math.acos`, `Math.sqrt`, `Vector.normalize`, `Location.distance` and IEEE double rounding: angles and distances are real inputs, and distance tests compare squares.
- Java `int` and `long` overflow in counters and timestamps: integers are unbounded. The one place where bit width matters, the block key, is modelled on 64-bit words.
- Concurrency: all maps are used sequentially, including WorldCache's `ConcurrentHashMap`.
- Case folding: `toLowerCase` and `equalsIgnoreCase` fold ASCII letters only.
- `ConfigManager` (YAML files), `RedoxGuardCommand`, the listeners, `RedoxGuard` bootstrap, `MovementSimulator` and `VersionCompatibility` are not part of this model. The respawn-anchor and flower-material checks of `VersionCompatibility` become boolean parameters. `ConfigManager.getCheckConfig` becomes the manager's `configs` map.
- Manager.CheckManager.HandleViolation: requires a configuration for the check's category. The source dereferences `getCheckConfig(type)` without a null test, so a missing category would throw.
- Detector reads of the player's record: `Check.getPlayerData` (src/main/java/com/kyssta/redoxguard/checks/Check.java:105-107) calls `getOrCreatePlayerData`, so a detector that reads ping or the attack time creates a fresh record when the player has none. The detector methods take the record as an argument supplied by the caller; that insertion is not modelled.
- `CheckManager.getChecks` returns the list itself; the model's `checks` field is that list.
- Config.GetString: a stored double gives the default instead of `Double.toString`'s text, because the model has no faithful decimal rendering of Java doubles.
- Config.GetDoubleValue and Config.GetLong: only the default case is stated in their own contracts. Both are defined through GetDouble and GetInt, whose contracts cover the stored cases.
- `getValue(path, default)` returns the default when the path is missing; Config.GetValue returns `None` there instead and leaves the default to the caller.
- WorldCache's `isSolid`, `isLiquid` and similar block-type queries, and the conversion from a `Location` to its block coordinates: they are table lookups over Bukkit materials. The coordinates are given as Java ints.
- Bukkit `BoundingBox`'s own normalisation of inverted boxes: boxes are taken as given.
- No lemma proves that the registered names are pairwise distinct, though they are.
- AdvancedTriggerBot's pattern comment speaks of milliseconds; the variance it compares with 1000 is in square milliseconds. The model keeps the number as written.

## Findings

| source | as written | input that shows it | evidently intended | confidence | as-written member | corrected member |
|---|---|---|---|---|---|---|
| src/main/java/com/kyssta/redoxguard/movement/WorldCache.java:144-148 | `(x << 32) \| (y << 16) \| z` on sign-extended ints, so a negative y or z sets the high bits and hides x and y | blocks (0, 0, -1) and (1, 64, -1) both get key `0xFFFFFFFFFFFFFFFF` | distinct blocks in the world get distinct keys | not executed | WorldCache.BlockKeyAsWrittenCollides | WorldCache.BlockKeyInjective |
| src/main/java/com/kyssta/redoxguard/checks/player/FastBreakCheck.java:174-226 | the wood rule tests `contains("AXE")`, which every `*_PICKAXE` name satisfies | DIAMOND_PICKAXE with Efficiency V on OAK_LOG: minimum 1333 ms instead of 3000 ms | only an axe suits the wood blocks | not executed | FastBreak.PickaxeOnLogAsWritten | FastBreak.PickaxeIsNoAxe |
| src/main/java/com/kyssta/redoxguard/checks/movement/SpeedCheck.java:109-113 | `1 - 0.1 * level` goes negative from Slowness 11, and the square makes the limit grow again | sprinting with Slowness 20: maximum -0.54, whose square is the limit with no Slowness | Slowness never raises the limit | not executed | Speed.SlownessTwentyAsWritten | Speed.SlownessNeverLoosens |
| src/main/java/com/kyssta/redoxguard/utils/WebhookUtil.java:127-129 | only backslash, quote and newline are escaped, though the result is documented as safe for JSON payloads | a detail text holding a tab (`\t`) is copied into the content string raw, which section 7 of RFC 8259 forbids | every control character below U+0020 is escaped | not executed | Webhook.EscapeJsonLeavesTab | Webhook.EscapeStrict |
