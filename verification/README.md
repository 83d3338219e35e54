# DigitalPulsify line-code engine in Dafny

DigitalPulsify turns a text into line-code waveforms: each UTF-16 code unit
is written in base 2, padded to at least eight digits, and every bit is drawn
in a box as NRZ, RZ, Manchester, binary AMI or CMI. AMI and CMI carry a running
state (polarity, level) along the whole bit stream. The repository holds the
engine three times over:

- the component-based React front end: `backend/src/utils/encoding.js`,
  `backend/src/components/CharacterGroup.jsx` and
  `backend/src/components/BitBox.jsx`;
- the single-file React front end, `backend/src/App.jsx`;
- the plain-DOM front end, `js/app.js`.

This project models all three and proves what each one computes. It also
proves where the three agree and where they disagree.

Modules, one per source file plus two shared ones and one comparison module:

- `LineCode` (linecode.dfy): the shared vocabulary.
  - code units are `nat < 65536`; levels are -1, 0 and +1;
  - the encoding selector has an `Unknown` case for every other string;
  - a pulse is a list of horizontal runs plus a list of vertical markers;
  - also: bit counting and `join('')`.
- `Base2` (base2.dfy): `toString(2)`, `padStart(n, '0')`, and reading base 2 back.
- `StateFold` (statefold.dfy): one per-bit state update and its folds, parameterised by a `CmiRule`, which is how a '1' moves the CMI level:
  - `Toggle` for encoding.js;
  - `OneMinus` for App.jsx;
  - `ThreeCycle` for CharacterGroup.jsx;
  - `Negate` for js/app.js.

  AMI negation is the same in every variant.
- `EncodingUtils` (encoding.dfy): encoding.js.
- `BitBox` (bitbox.dfy): BitBox.jsx's pulse generation, vertical span, connector and mid-marker decision.
- `CharacterGroup` (charactergroup.dfy): `processBits`.
- `ReactApp` (reactapp.dfy): App.jsx's inline `textToBinary`, `totalBits`, `getEncodingStates`, inline `CharacterGroup` and `drawPulse`.
- `PlainApp` (plainapp.dfy): js/app.js's conversion and its drawing loop. The two loops are methods with loop invariants.
- `CrossVariant` (crossvariant.dfy): agreements and disagreements between the three front ends.
- `Scenarios` (scenarios.dfy): worked inputs ("A", "C", "CB", "Hi").

Where the code and its description strings disagree, the model follows the code. Two examples:

- NRZ draws '1' at -1 in BitBox.jsx and App.jsx, but at +1 in js/app.js.
- The CMI '0' is drawn 0 then +1 in React, but +1 then -1 in js/app.js.

## Model

| member | source | states |
|---|---|---|
| LineCode.EncodingOf | backend/src/constants/index.js:34-40 | a selector string maps to the encoding it names; every other string maps to `Unknown`, which no encoding name equals |
| LineCode.WithFallback | backend/src/App.jsx:246 | an empty input becomes "Hello" and any other input is kept, so the engine never sees empty text; js/app.js:83 applies the same fallback |
| LineCode.ConcatLength | js/app.js:108 | if every binary string has at least eight digits, the joined stream has at least 8·n bits, and exactly 8·n iff every string has exactly eight |
| Base2.ToBase2 | backend/src/utils/encoding.js:10 | `toString(2)` is a non-empty binary string with no leading zero unless it is "0" |
| Base2.PadStart | backend/src/utils/encoding.js:10 | `padStart(w, '0')` is as long as the longer of `w` and `s`, ends with `s` and puts only '0' before it: nothing is truncated |
| Base2.FromBase2ToBase2 | backend/src/utils/encoding.js:9-10 | reading `toString(2)` back as base 2 returns the number |
| Base2.FromBase2LeadingZeros | backend/src/utils/encoding.js:10 | leading zeros do not change the base-2 value |
| Base2.ToBase2Length | backend/src/utils/encoding.js:10 | `toString(2)` has at most k digits iff the number is below 2^k |
| Base2.PaddedRoundTrip | backend/src/utils/encoding.js:9-11 | reading the padded binary back returns the code unit, for every code unit |
| EncodingUtils.CharToBinary | backend/src/utils/encoding.js:8-12 | `{char, ascii, binary}` has `char` and `ascii` equal to the code unit; `binary` is all '0'/'1', has at least 8 digits, exactly 8 iff the code unit is below 256, and reads back as the code unit |
| EncodingUtils.TextToBinary | backend/src/utils/encoding.js:19-21 | one record per code unit, in order, entry i being `charToBinary(text[i])`; empty text gives no records |
| EncodingUtils.CalculateEncodingStates | backend/src/utils/encoding.js:29-51 | one state per character, each recorded before that character's bits: the first is (1, 0) and each next one is the previous one folded over the character's bits. Under NRZ, RZ and Manchester every state is (1, 0). Under AMI the polarity is (-1)^(ones in the earlier characters) and the CMI state stays 0. Under CMI the level is that count mod 2 and the polarity stays 1 |
| EncodingUtils.SnapshotClosedForm | backend/src/utils/encoding.js:38-47 | for either toggling CMI rule, snapshot i has the closed form above for the ones in characters 0..i-1 |
| EncodingUtils.NextAmiPolarity | backend/src/utils/encoding.js:59-61 | `getNextAmiPolarity` returns the polarity or its negation, and keeps ±1 within ±1 |
| EncodingUtils.AmiInvolution | backend/src/utils/encoding.js:59-61 | '0' leaves the polarity, '1' negates it, and two '1's restore it |
| EncodingUtils.NextCmiState | backend/src/utils/encoding.js:69-74 | `getNextCmiState` is the identity on every bit but '1'; on '1' it gives 1 exactly from 0, and 0 from everything else |
| EncodingUtils.StepIsHelpers | backend/src/utils/encoding.js:39-45 | the per-bit update inside `calculateEncodingStates` is `getNextAmiPolarity` on the polarity under AMI and `getNextCmiState` on the level under CMI |
| StateFold.CmiNext | backend/src/components/CharacterGroup.jsx:22 | how a '1' moves the CMI level under each variant's rule: `Toggle` (encoding.js:44) gives 0 or 1, and 1 exactly from 0; `OneMinus` (App.jsx:211-212) gives 1 - c; `ThreeCycle` (this line) gives ±1, and -1 exactly from 1; `Negate` (js/app.js:151) gives -c. The two toggling rules agree on 0 and 1 |
| StateFold.Step | backend/src/utils/encoding.js:39-46 | a bit other than '1' changes nothing; a '1' negates the polarity only under AMI and moves the level by the CMI rule only under CMI |
| StateFold.Fold | backend/src/utils/encoding.js:38-46 | applying the per-bit update along a string: with no '1' the state is unchanged; the polarity moves only under AMI and only by sign, the level only under CMI |
| StateFold.Snapshots | backend/src/utils/encoding.js:34-48 | one snapshot per character; the first is the start state and each next one is the previous one folded over that character's bits |
| StateFold.Annotate | backend/src/components/CharacterGroup.jsx:12-31 | one record per bit, in order, with index base + k, the start state at record 0, and each next state one step on from the previous one |
| StateFold.FoldAppend | backend/src/utils/encoding.js:34-48 | folding a concatenation is folding the parts one after the other: the state is carried across characters, never reset |
| StateFold.SnapshotsAsFold | backend/src/utils/encoding.js:34-48 | snapshot i is the start state folded over the first i characters joined |
| StateFold.AnnotateAsFold | backend/src/components/CharacterGroup.jsx:14-23 | record k carries the start state folded over the first k bits |
| StateFold.AnnotateFinal | backend/src/components/CharacterGroup.jsx:18-23 | stepping the last record's state by the last bit gives the state after the whole string |
| StateFold.FoldStateless | backend/src/utils/encoding.js:40-45 | NRZ, RZ and Manchester never move the state |
| StateFold.FoldAmi | backend/src/utils/encoding.js:40-42 | under AMI the polarity is multiplied by (-1)^(ones) and the CMI level is untouched |
| StateFold.FoldCmiKeepsPolarity | backend/src/utils/encoding.js:43-45 | under CMI the AMI polarity is untouched |
| StateFold.FoldCmiParity | backend/src/utils/encoding.js:44 | the toggling rules, started on 0 or 1, leave the level at (start + ones) mod 2 |
| StateFold.FoldCmiNegate | js/app.js:150-152 | the negating rule multiplies the level by (-1)^(ones) |
| StateFold.FoldThreeCycle | backend/src/components/CharacterGroup.jsx:21-23 | the three-valued rule, started at 0, is at 0, 1, -1, 1, -1, … after 0, 1, 2, 3, 4, … ones |
| StateFold.FoldToggleRulesAgree | backend/src/App.jsx:210-213 | "negate, then add one" and "0 becomes 1, else 0" give the same fold from any level in {0, 1} |
| BitBox.VoltagePercent | backend/src/components/BitBox.jsx:5-9 | the height at which a vertical marker meets a level lies between 25% and 75% of the box height (horizontal runs are placed by a different table) |
| BitBox.VoltagePercentDecreasing | backend/src/components/BitBox.jsx:5-9 | a marker meets a higher level strictly higher up (smaller percentage), in both directions |
| BitBox.VerticalTransition | backend/src/components/BitBox.jsx:34-38 | the vertical span runs from the height of the higher level to that of the lower, top ≤ bottom, and is empty iff the levels are equal |
| BitBox.VerticalTransitionSymmetric | backend/src/components/BitBox.jsx:35-38 | the span does not depend on the order of the two levels |
| BitBox.HasMidTransition | backend/src/components/BitBox.jsx:56-61 | the mid-bit marker decision: Manchester and RZ always, CMI only for '0'; MidTransitionMatchesPulse states what it means |
| BitBox.GeneratePulse | backend/src/components/BitBox.jsx:66-124 | an unknown encoding draws nothing and every known one draws runs that tile [0,100] left to right; at most one marker, always mid-bit; runs lie on the three levels when the state does. RZ, Manchester and CMI '0' draw two runs split at 50 with one marker; NRZ, AMI and CMI '1' draw one run across the slot and no marker. Levels: NRZ -1 for '1' and +1 otherwise; RZ the same, then 0; Manchester +1 then -1 for '1' and -1 then +1 otherwise; AMI the polarity for '1' and 0 otherwise; CMI the level for '1' and 0 then +1 otherwise |
| BitBox.MidTransitionMatchesPulse | backend/src/components/BitBox.jsx:56-61 | for a '0' or '1', `hasMidTransition` holds iff `generatePulse` draws a mid-bit marker, iff the level at the start of the slot differs from the level at its end |
| BitBox.MidTransitionMissesOtherChars | backend/src/components/BitBox.jsx:59 | for a character other than '0' and '1', CMI draws a split pulse with a marker, but `hasMidTransition` says no. Such a character never comes out of `charToBinary`, so the app cannot reach this case |
| BitBox.CenterMarkerSpans | backend/src/components/BitBox.jsx:82 | whenever a mid-bit marker is drawn there are exactly two runs, and the marker runs between the marker heights of their two levels |
| BitBox.PulseReadsOnlyItsState | backend/src/components/BitBox.jsx:101-117 | NRZ, RZ and Manchester ignore the state; AMI reads only the polarity and CMI only the level; a '0' ignores the state except under CMI |
| BitBox.PulseDistinguishesBits | backend/src/components/BitBox.jsx:71-117 | every known encoding draws '0' and '1' differently, given a non-zero AMI polarity |
| BitBox.NeedsConnector | backend/src/components/BitBox.jsx:146-151 | the connector condition: `connectBits` set, a next start voltage given, and different from the end voltage |
| BitBox.WithConnector | backend/src/components/BitBox.jsx:146-155 | the connector is appended after the existing markers, at most once and exactly when it is needed; it is `createVerticalTransition(endVoltage, nextStartVoltage, 'edge')` and has positive height |
| BitBox.BitBoxView | backend/src/components/BitBox.jsx:142-163 | the bit box keeps `generatePulse`'s runs and its markers, in front; it adds one edge connector iff `connectBits` is set, a next start voltage is given and it differs from the end voltage; that connector is `createVerticalTransition(endVoltage, nextStartVoltage, 'edge')`, of positive height; the mid-bit marker shows iff markers are on and `hasMidTransition` holds. The component front end never sets `connectBits`, `showMidBitMarkers` or `nextStartVoltage`, so there neither is drawn |
| BitBox.NoConnectorForEqualVoltages | backend/src/components/BitBox.jsx:146-155 | equal voltages across a boundary leave the pulse exactly as `generatePulse` drew it |
| CharacterGroup.ProcessBits | backend/src/components/CharacterGroup.jsx:8-32 | one record per bit, in order, with global index charIndex·8 + k; record 0 carries the start states; each next state is the previous one moved by that bit (a '1' negates the polarity under AMI and moves the level by the three-valued rule under CMI); a bit other than '1' never changes the state; NRZ, RZ and Manchester carry the start states throughout |
| CharacterGroup.AmiPolarityAt | backend/src/components/CharacterGroup.jsx:18-20 | under AMI record k carries the start polarity times (-1)^(ones before bit k), and the CMI level is untouched |
| CharacterGroup.AmiAlternatesAtOnes | backend/src/components/CharacterGroup.jsx:18-20 | under AMI two consecutive '1' bits carry opposite polarities |
| CharacterGroup.CmiLevelsAt | backend/src/components/CharacterGroup.jsx:21-23 | from level 0 the bit after n ones carries 0, 1, -1, 1, … for n = 0, 1, 2, 3, …; from level 1 (what the snapshots hand over after an odd count) it carries 1, -1, 1, …, so the first '1' already gives -1 |
| CharacterGroup.AmiZerosDrawnFlat | backend/src/components/BitBox.jsx:101-104 | under AMI the bit box of every '0' record draws one run across the slot at level 0 and no marker, whatever the state |
| CharacterGroup.AmiDrawnLevels | backend/src/components/CharacterGroup.jsx:18-20 | under AMI from polarity ±1, the bit boxes of two consecutive '1's each draw one run across the slot and no marker, at opposite levels, each +1 or -1 |
| CharacterGroup.CmiDivergesFromToggle | backend/src/components/CharacterGroup.jsx:22 | the three-valued rule agrees with `getNextCmiState` from 0 but not from 1 (-1 against 0); its level equals ones mod 2 iff fewer than two ones or an odd number; "111" carries 0, 1, -1 from level 0, and -1 at its second bit from level 1 |
| CharacterGroup.GlobalIndexCollidesBeyondEightBits | backend/src/components/CharacterGroup.jsx:13 | for a character with more than eight digits, its ninth bit gets the same global index as the next character's first bit |
| ReactApp.TextToBinary | backend/src/App.jsx:187-192 | one record per code unit, with `char` and `ascii` equal to it, and a binary of at least 8 digits that reads back as it |
| ReactApp.TotalBits | backend/src/App.jsx:195 | `totalBits` counts eight bits per character, whatever the binaries' lengths; TotalBitsMatchesStream compares it with the bits drawn |
| ReactApp.TotalBitsMatchesStream | backend/src/App.jsx:195 | `totalBits` (8 per character) never exceeds the joined bit count, and equals it iff every code unit is below 256 |
| ReactApp.GetEncodingStates | backend/src/App.jsx:198-219 | one state per character, starting at (1, 0) and each next one folded by "negate, then add one"; it has the same closed forms as `calculateEncodingStates` |
| ReactApp.InlineCharacterGroup | backend/src/App.jsx:114-138 | one record per bit with index charIndex·8 + k, the start states at record 0, and each next state one step on |
| ReactApp.GroupHandsOverState | backend/src/App.jsx:118-130 | stepping the inline group's last record by its last bit gives the next character's snapshot from `getEncodingStates` |
| ReactApp.DrawPulse | backend/src/App.jsx:6-84 | an unknown encoding draws nothing and every known one tiles [0,100]; every mid-bit vertical spans the whole box, 0 to 100. RZ, Manchester and CMI '0' draw two runs split at 50 with one vertical; NRZ, AMI and CMI '1' draw one run across the slot and no vertical. Levels: NRZ +1 for '0' and -1 otherwise; RZ the same, then 0; Manchester +1 then -1 for '1' and -1 then +1 otherwise; AMI the polarity for '1' and 0 otherwise; CMI the level for '1' and 0 then +1 otherwise |
| ReactApp.GroupPulses | backend/src/App.jsx:143-152 | one pulse per bit record, box k being `drawPulse` of record k's bit and states; all empty for an unknown encoding, all tiling for a known one |
| ReactApp.CharacterPulses | backend/src/App.jsx:114-155 | the inline group's box k is `drawPulse` of bit k with the group's start state folded, by "negate, then add one", over the bits before k |
| ReactApp.Render | backend/src/App.jsx:114-156 | one group per character, each with as many bit boxes as the character's binary has digits, so never fewer than eight; box k of group i is `drawPulse` of that bit, with character i's snapshot from `getEncodingStates` folded over the bits before k |
| PlainApp.PadToEight | js/app.js:100-103 | the prepend-'0' loop computes exactly `padStart(8, '0')` |
| PlainApp.ConvertToBinaryArray | js/app.js:99-104 | one binary string per code unit, equal to `charToBinary`'s binary of it |
| PlainApp.TotalBits | js/app.js:108 | `totalBits` is the length of the joined stream: at least eight per string when every string has eight or more digits, and exactly eight per string iff each has exactly eight |
| PlainApp.DrawNRZ | js/app.js:295-298 | one run across the slot and no vertical, at +1 for '1' and -1 otherwise |
| PlainApp.DrawRZ | js/app.js:301-308 | two runs split at 50 and one full-height mid vertical; the first half at +1 for '1' and -1 otherwise, the second half at 0 |
| PlainApp.DrawManchester | js/app.js:311-324 | two runs split at 50 and one full-height mid vertical; +1 then -1 for '1', -1 then +1 otherwise |
| PlainApp.DrawAMI | js/app.js:327-335 | one run across the slot and no vertical, at `lastPolarity` for '1' and at 0 otherwise |
| PlainApp.DrawCMI | js/app.js:338-350 | the runs tile the slot, and a full-height mid vertical is drawn iff the bit is not '1'; a '1' is one run at `lastOne` with no vertical, anything else two runs split at 50, +1 then -1 |
| PlainApp.DrawPulseLines | js/app.js:198-226 | the dispatch draws nothing exactly for an unknown encoding |
| PlainApp.StateAt | js/app.js:128-152 | the state the loop holds before bit i: polarity and level are each ±1, each stays 1 unless its own encoding is chosen, and bit 0 sees (+1, +1) |
| PlainApp.StateAtStep | js/app.js:146-152 | moving past bit i is one negating step of the state |
| PlainApp.GeneratePulseVisualization | js/app.js:120-154 | one drawn bit per bit of the joined stream, with index i. Its state is the one before its own update: polarity (-1)^(ones before i) under AMI and 1 otherwise, and likewise for the CMI level. The state is never reset between characters, and each pulse is `drawPulseLines` of that bit and state |
| PlainApp.ConvertToPulseCode | js/app.js:82-117 | `totalBits` equals the number of bits drawn: at least 8 per character of the (never empty) text, and exactly 8 per character iff every code unit is below 256; bit i drawn is bit i of the joined `charToBinary` binaries of the text, with its index, the loop's state before it, and `drawPulseLines` of both |
| CrossVariant.TextConversionsAgree | backend/src/App.jsx:187-192 | App.jsx's `textToBinary` returns exactly encoding.js's records |
| CrossVariant.StateSnapshotsAgree | backend/src/App.jsx:198-219 | `getEncodingStates` equals `calculateEncodingStates` on every input and encoding |
| CrossVariant.ToggleRulesDifferOutsideZeroOne | backend/src/App.jsx:211-212 | outside {0, 1} the two toggling rules differ: -1 goes to 2 and to 0 |
| CrossVariant.PlainStateIsNegatingFold | js/app.js:128-152 | the plain-DOM state at bit i is the negating fold of the stream from (+1, +1) over the first i bits |
| CrossVariant.AmiPolarityWithinCharacter | backend/src/components/CharacterGroup.jsx:18-20 | a group started with the snapshot polarity records, for bit k of character i, the polarity of that bit's position in the joined stream |
| CrossVariant.AmiPolarityAgrees | js/app.js:146-148 | under AMI `processBits`, the inline group and the plain-DOM loop give every bit of the stream the same polarity |
| CrossVariant.ComponentAmiPolarity | backend/src/components/CharacterGroup.jsx:18-20 | `processBits` started from `calculateEncodingStates` agrees with the plain-DOM polarity at every stream position |
| CrossVariant.InlineAmiPolarity | backend/src/App.jsx:124-126 | the inline group started from `getEncodingStates` agrees with the plain-DOM polarity at every stream position |
| CrossVariant.DrawPulseMatchesGeneratePulse | backend/src/App.jsx:43-77 | for a '0' or '1', `drawPulse` draws the same runs as `generatePulse` and the same number of markers, mid-bit in the same cases |
| CrossVariant.DrawPulseMarkerHeightDiffers | backend/src/App.jsx:51 | the marker heights differ: RZ '1' is 50-75 in the bit box, but 0-100 in `drawPulse` |
| CrossVariant.NrzOtherCharsDiffer | backend/src/App.jsx:44 | for a character other than '0' and '1', NRZ is -1 in `drawPulse` (it tests '0') but +1 in `generatePulse` (it tests '1'). Such a character never comes out of the text conversions, so the app cannot reach this case |
| CrossVariant.NrzInverted | js/app.js:295-298 | the plain-DOM NRZ level is the opposite of BitBox.jsx's for every bit |
| CrossVariant.RzPulseHalfInverted | js/app.js:301-308 | the plain-DOM RZ pulse half is the opposite of BitBox.jsx's; the zero half agrees |
| CrossVariant.ManchesterAndAmiAgree | js/app.js:311-335 | Manchester and AMI runs are the same in the plain-DOM and bit-box drawings |
| CrossVariant.CmiDrawingsCompared | js/app.js:338-350 | CMI '1' is drawn at the given level by both; CMI '0' is +1/-1 in js/app.js but 0/+1 in BitBox.jsx |
| CrossVariant.CmiFirstOneDiffers | js/app.js:129 | the first CMI '1' of a stream is drawn at +1 by the plain-DOM front end but at 0 by the React ones |
| CrossVariant.UnknownDrawsNothing | js/app.js:209-225 | no front end draws anything for an unknown encoding |
| Scenarios.BinaryOfA | backend/src/utils/encoding.js:10 | 'A' (65) converts to "01000001" |
| Scenarios.AmiAlongA | backend/src/components/CharacterGroup.jsx:18-20 | under AMI from (+1, 0) the two ones of "A" carry +1 and then -1 |
| Scenarios.CmiAlongA | backend/src/components/CharacterGroup.jsx:21-23 | under CMI from 0 the two ones of "A" carry 0 and then 1 |
| Scenarios.BinaryOfC | backend/src/utils/encoding.js:10 | 'C' (67) converts to "01000011" |
| Scenarios.CmiAlongC | backend/src/components/CharacterGroup.jsx:21-23 | under CMI from level 0 the third '1' of "C" carries -1 |
| Scenarios.CmiDrawsThirdOneOfCLow | backend/src/components/BitBox.jsx:107-109 | 'C' converts to "01000011", and under CMI from level 0 the bit box draws its third '1' at -1 |
| Scenarios.AmiCarriedIntoSecondCharacter | backend/src/utils/encoding.js:34-47 | in "CB" under AMI, the polarity entering 'B' is the one left by the bits of 'C': -1 after its three ones, where a reset would give +1 |
| Scenarios.HiUnderNrz | backend/src/App.jsx:194-195 | "Hi" converts to "01001000" and "01101001", counts 16 bits, and keeps the state (1, 0) under NRZ |

## Left out

- Rendering (JSX, DOM nodes, CSS positions, colours, grid and reference lines, bit labels): presentation only. A pulse is modelled as what is drawn: runs and markers with their percentages.
- The mixed order of runs and markers in one DOM child list: runs and markers are kept as two lists, each in the source's order.
- `memo` and `useMemo`: caching only, with no effect on the values computed.
- Event listeners, keyboard shortcuts, `animatePulseVisualization` and style injection in js/app.js: UI and timing side effects.
- The English description strings, and `backend/src/constants/index.js` beyond `ENCODING_TYPES` and `BITS_PER_CHAR`: display text and style tables.
- `createBitContainer`'s label text in js/app.js (including its `parseInt` read-back of the character): display only.
- BitBox.BitBoxView: takes `endVoltage` as a level, so an undefined `endVoltage` prop is not modelled.
- Characters are UTF-16 code units (`split('')`, `charCodeAt(0)`), not Unicode scalar values.
- BitBox.BitBoxView: CharacterGroup.jsx:54-61 passes a bit box only its index, bit, encoding and the two states, so in the component front end the edge connector (BitBox.jsx:146-155) and the mid-bit marker (BitBox.jsx:157-161) are never drawn; the model keeps both paths as the bit box defines them.
- Screen positions of the runs: BitBox.jsx places horizontal runs by `VOLTAGE_POSITIONS` (+1 at 0%, 0 at 50%, -1 at 100% of the box height), but its vertical markers by `VOLTAGE_PERCENT` (25%, 50%, 75%), so on screen the markers stop short of the runs. The model keeps the marker percentages and the run levels, not the run positions.
- ReactApp.Render: for an encoding outside the five names, App.jsx:295 (`encodingInfo[encoding].name`) throws a TypeError during render, so nothing is drawn; the model returns empty pulses instead. Neither the selector nor the tabs (App.jsx:258-265, 282) can produce such an encoding.
- PlainApp.ConvertToPulseCode: for an encoding outside the five names, js/app.js:116 (`codeNames[codeType].split(' ')`) throws a TypeError after the bit boxes are drawn; the model returns normally. The page markup that supplies `codeType` is not part of this model.
- BitBox.GeneratePulse: the voltages are not constrained when a caller passes an AMI polarity or CMI level outside -1..1. The source would then look up an undefined screen position.
