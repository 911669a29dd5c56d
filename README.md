# Raisa visualiser core, modelled in Dafny

Raisa is a small mobile robot; its Java visualiser (`raisavis`) receives sensor
telegrams from the robot, keeps a world model of samples and robot states, moves
the robot estimate by dead reckoning, simulates a sweeping range-sensor servo and
holds the user's display configuration. This project models the core of that
visualiser and proves properties of it:

- **Telegram grammar** (`telegram.dfy`): the `STA;…;END;` telegram format that
  `SampleParser.isValid` accepts, Java's `String.split("[;]")` with its trailing
  empty strings dropped, `substring(2)` and `Integer.parseInt` on the value
  texts, all with their failure cases.
- **SampleParser** (`sample_parser.dfy`): `parse` turns a telegram into a typed
  `Sample` (angles in radians, distances range-checked, accelerations scaled from
  calibrated raw counts with 32-bit wrap-around, wheel ticks), raising the
  validity flags only when both angle and distance of a sensor were seen. The
  loop is proved equal to a decode-then-apply specification, and every reading
  is characterised as the value of the last part that writes it.
- **Legacy map-based Sample** (`vis_sample.dfy`): `raisa.vis.Sample` stores
  readings in a `HashMap` under two-letter keys; the model proves which key holds
  which part's value, that the shared tags agree with the parser, and exposes
  the `getAcceleration` defect listed under Findings.
- **WorldModel** (`world_model.dfy`): the sample and state histories, the sample
  fixers, the listener lists and their notifications, the map file bookkeeping
  and `calculateSpeed`, whose loop is proved to give the travelled distance per
  track over the elapsed time of the last states.
- **SimpleRobotMovementEstimator** (`movement_estimator.dfy`): one dead-reckoning
  step from wheel ticks or odometer readings, the compass rule and the bounded
  particle noise.
- **RotatingServo** (`rotating_servo.dfy`): the -90..90 degree sweep, proved to
  stay within one step of its range however many steps it takes.
- **VisualizerConfig** (`visualizer_config.dfy`): setters that record a change
  only when the value differs, the SLAM localisation switch, the displayed-element
  sets and the notify-then-clear change flag.

Floating-point numbers are modelled as reals. Trigonometry, `Math.pow`,
`Math.sqrt` and random draws are parameters of the operations that use them.
`Numeric.Divide` models Java's float division, including division by zero, and
`Numeric.Int32` models int wrap-around.

## Model

| member | source | states |
|---|---|---|
| Numeric.ToRadians | raisavis/src/main/java/raisa/comms/SampleParser.java:30 | 90 degrees is pi/2, 0 is 0, and the conversion keeps the sign of the angle |
| Numeric.Int32 | raisavis/src/main/java/raisa/comms/SampleParser.java:57 | the 32-bit two's-complement wrap: the result is in int range, congruent to the input modulo 2^32, and equal to it when already in range |
| Numeric.Divide | raisavis/src/main/java/raisa/domain/WorldModel.java:95-96 | Java float division: an exact quotient for a non-zero divisor; infinity of the dividend's sign, or NaN for 0/0, when the divisor is zero |
| Geometry.SquaredDistance | raisavis/src/main/java/raisa/vis/Sample.java:97-98 | squared distance is non-negative and zero from a point to itself |
| Telegram.UpperRun | raisavis/src/main/java/raisa/comms/SampleParser.java:91 | the length of the longest run of capitals at the front: everything before it is A-Z and the next character is not |
| Telegram.SplitAllHasNoSeparator | raisavis/src/main/java/raisa/comms/SampleParser.java:24 | no piece produced by splitting on ';' contains a ';' |
| Telegram.JoinSplitAll | raisavis/src/main/java/raisa/comms/SampleParser.java:24 | joining the pieces back with ';' gives the original string |
| Telegram.SplitAllJoin | raisavis/src/main/java/raisa/comms/SampleParser.java:24 | splitting a ';'-join of ';'-free pieces gives those pieces back |
| Telegram.SplitAllOfPiece | raisavis/src/main/java/raisa/comms/SampleParser.java:24 | a ';'-free string splits into itself alone |
| Telegram.SplitAll | raisavis/src/main/java/raisa/comms/SampleParser.java:24 | the pieces between the separators, empty pieces included; never an empty list (JoinSplitAll and SplitAllJoin make it the inverse of the join) |
| Telegram.SplitAllConcat | raisavis/src/main/java/raisa/comms/SampleParser.java:24 | splitting `a;b` is splitting `a` followed by splitting `b` |
| Telegram.JavaSplit | raisavis/src/main/java/raisa/comms/SampleParser.java:24 | String.split keeps a prefix of the ';'-separated pieces (which prefix: DropTrailingEmpty) |
| Telegram.DropTrailingEmpty | raisavis/src/main/java/raisa/comms/SampleParser.java:24 | the kept pieces are a prefix, the dropped ones are all empty, and the result does not end in an empty piece |
| Telegram.FieldListJoin | raisavis/src/main/java/raisa/comms/SampleParser.java:91 | a field list is its fields each followed by ';' |
| Telegram.ComposeIsJoin | raisavis/src/main/java/raisa/comms/SampleParser.java:91 | a telegram built from fields is the ';'-join of STA, the fields, END and the line-break tail |
| Telegram.FieldListSnoc | raisavis/src/main/java/raisa/comms/SampleParser.java:91 | appending a field extends the field list by that field and a ';' |
| Telegram.FieldHasNoSeparator | raisavis/src/main/java/raisa/comms/SampleParser.java:91 | a field (capitals, an optional minus, digits) holds no ';' |
| Telegram.IsValid | raisavis/src/main/java/raisa/comms/SampleParser.java:90-92 | the regular expression `STA;([A-Z]+[-]?[0-9]+;)*END;[\n\r]*` stated on the pieces: STA, fields, END, then a piece of line breaks only (equivalent to the composition by ComposeIsValid and ValidIsCompose; raisa.vis.Sample.isValid at Sample.java:123-125 is the same expression) |
| Telegram.ComposeIsValid | raisavis/src/main/java/raisa/comms/SampleParser.java:90-92 | every `STA;` + fields + `END;` + line breaks is accepted by isValid |
| Telegram.ValidIsCompose | raisavis/src/main/java/raisa/comms/SampleParser.java:90-92 | conversely, every string isValid accepts is such a composition |
| Telegram.JavaSplitOfValid | raisavis/src/main/java/raisa/comms/SampleParser.java:24 | the parts parse iterates over for a valid telegram are STA, its fields, END (and a non-empty line-break tail) |
| Telegram.JavaSplitOfCompose | raisavis/src/main/java/raisa/comms/SampleParser.java:24 | the same for a telegram given by its fields |
| Telegram.EmptyTelegramIsValid | raisavis/src/main/java/raisa/comms/SampleParser.java:90-92 | `STA;END;` is valid |
| Telegram.UnterminatedTelegramIsInvalid | raisavis/src/main/java/raisa/comms/SampleParser.java:90-92 | `STA;IR5;`, which lacks `END;`, is invalid |
| Telegram.UnsignedFieldExample | raisavis/src/main/java/raisa/comms/SampleParser.java:91 | `IR90` is a field |
| Telegram.SignedFieldExample | raisavis/src/main/java/raisa/comms/SampleParser.java:91 | `ID-300` is a field |
| Telegram.SignedTelegramCompose | raisavis/src/main/java/raisa/comms/SampleParser.java:91 | a telegram with a signed field is the composition of its fields |
| Telegram.SignedFieldsAreValid | raisavis/src/main/java/raisa/comms/SampleParser.java:90-92 | a telegram with a negative value and a CRLF tail is valid |
| Telegram.AfterTag | raisavis/src/main/java/raisa/comms/SampleParser.java:26 | substring(2) of a part: the part is its first two characters followed by the result |
| Telegram.DigitsValueLeadingDigit | raisavis/src/main/java/raisa/comms/SampleParser.java:75 | a digit string is at least its leading digit times ten to its length minus one |
| Telegram.ParseDecimal | raisavis/src/main/java/raisa/comms/SampleParser.java:30 | a number is read exactly when the text is an optional sign followed by at least one digit |
| Telegram.ParseInt | raisavis/src/main/java/raisa/comms/SampleParser.java:30 | Integer.parseInt succeeds exactly on ASCII decimal texts whose value fits in an int, and returns that value |
| Telegram.ParseFloat | raisavis/src/main/java/raisa/vis/Sample.java:47-64 | Float.parseFloat of a value text succeeds exactly when the text is a signed decimal integer, with that integer's value |
| Telegram.FieldValue | raisavis/src/main/java/raisa/comms/SampleParser.java:26-30 | the text after a field's first two letters is a decimal exactly when the tag has no third letter |
| SampleParser.Sample.With | raisavis/src/main/java/raisa/comms/SampleParser.java:32-73 | setting one reading changes that reading and nothing else |
| SampleParser.Unset | raisavis/src/main/java/raisa/comms/SampleParser.java:15-16 | a fresh sample carries only its telegram string: no readings, no ticks, no validity flags |
| SampleParser.TagOf | raisavis/src/main/java/raisa/comms/SampleParser.java:27-81 | the branch of the if-chain a part takes: STA and END first, then the first two characters as the `startsWith` tests read them; shorter or other parts are unknown |
| SampleParser.Angle | raisavis/src/main/java/raisa/comms/SampleParser.java:30-31 | an IR, SR or CD value in degrees converted to radians and turned back a quarter circle |
| SampleParser.InfraredCentimetres | raisavis/src/main/java/raisa/comms/SampleParser.java:35-36 | the infrared curve 10650.08 * v^-0.935 - 10 in centimetres, with pow a parameter |
| SampleParser.UltrasoundCentimetres | raisavis/src/main/java/raisa/comms/SampleParser.java:47-48 | half the echo value in inches, converted to centimetres |
| SampleParser.EffectOf | raisavis/src/main/java/raisa/comms/SampleParser.java:29-79 | what a tag with value v does: exactly RL and RR set ticks, to v; only ID and SD can do nothing, which they do when the distance is out of range (when exactly: DistanceWriters); AX, AY and AZ wrap their calibrated value at 32 bits |
| SampleParser.PartEffect | raisavis/src/main/java/raisa/comms/SampleParser.java:26-81 | a part throws exactly when its tag reads a value and the text after the tag fails parseInt; markers and unknown tags do nothing |
| SampleParser.ParseSpec | raisavis/src/main/java/raisa/comms/SampleParser.java:21-22 | an invalid telegram yields the fresh sample, flags unset |
| SampleParser.Apply | raisavis/src/main/java/raisa/comms/SampleParser.java:32-79 | one effect on the locals: a reading is set and its seen flag raised, ticks set their side, a skipped part changes nothing (ApplyReading, ApplyAllFlags, TicksKeepReadings) |
| SampleParser.Fold | raisavis/src/main/java/raisa/comms/SampleParser.java:25-82 | the loop over the parts: each part decoded and applied in turn, the first throwing part ends it with that part's exception; the telegram string is kept |
| SampleParser.Finish | raisavis/src/main/java/raisa/comms/SampleParser.java:83-84 | after the loop each validity flag is set to "angle seen and distance seen"; readings, ticks and string are unchanged |
| SampleParser.Parse | raisavis/src/main/java/raisa/comms/SampleParser.java:14-88 | the parse loop computes the specification: parts applied in order, the first throwing part ends it, validity flags set from the seen flags afterwards |
| SampleParser.FoldIsDecodeThenApply | raisavis/src/main/java/raisa/comms/SampleParser.java:25-82 | the loop equals decoding every part first and then applying the effects |
| SampleParser.DecodeParts | raisavis/src/main/java/raisa/comms/SampleParser.java:25-82 | decoding succeeds exactly when every part decodes, gives each part's own effect, and a failure is the first failing part's |
| SampleParser.ApplyAllSnoc | raisavis/src/main/java/raisa/comms/SampleParser.java:25-82 | applying one more effect applies it to the sample the earlier ones produced |
| SampleParser.ApplyAllReading | raisavis/src/main/java/raisa/comms/SampleParser.java:29-73 | each reading ends as the value of the last effect writing it, or unchanged when none does |
| SampleParser.ApplyReading | raisavis/src/main/java/raisa/comms/SampleParser.java:29-73 | one effect writes exactly its own reading |
| SampleParser.TicksKeepReadings | raisavis/src/main/java/raisa/comms/SampleParser.java:74-79 | tick effects leave every reading alone |
| SampleParser.ApplyAllTicks | raisavis/src/main/java/raisa/comms/SampleParser.java:74-79 | each wheel's ticks end as the last value written for that wheel |
| SampleParser.ApplyAllFlags | raisavis/src/main/java/raisa/comms/SampleParser.java:33-51 | a seen flag ends raised exactly when it started raised or some effect writes that reading, so it is never lowered |
| SampleParser.ApplyAllKeeps | raisavis/src/main/java/raisa/comms/SampleParser.java:25-82 | the loop never touches the telegram string or the validity fields |
| SampleParser.LastReadingIsLast | raisavis/src/main/java/raisa/comms/SampleParser.java:29-73 | the last writer found is a writer and no later effect writes the same reading |
| SampleParser.PartDistanceInRange | raisavis/src/main/java/raisa/comms/SampleParser.java:37-51 | a distance a part writes lies in the sensor's accepted range |
| SampleParser.DistancesInRange | raisavis/src/main/java/raisa/comms/SampleParser.java:37-51 | the last distance a telegram's parts write lies in its sensor's range |
| SampleParser.LastReadingInRange | raisavis/src/main/java/raisa/comms/SampleParser.java:37-51 | the last distance written by a run of effects is in range |
| SampleParser.ParseIsDecodeThenApply | raisavis/src/main/java/raisa/comms/SampleParser.java:21-85 | parse of a valid telegram succeeds exactly when every part decodes, and then is the finished application of the effects |
| SampleParser.ParseCharacterization | raisavis/src/main/java/raisa/comms/SampleParser.java:14-88 | the parsed sample field by field: each reading and each wheel's ticks is the last value written, the string is kept, each validity flag is "angle and distance present", and distances are in range |
| SampleParser.FinishApplyAll | raisavis/src/main/java/raisa/comms/SampleParser.java:83-84 | each sensor's validity is "angle seen and distance seen" |
| SampleParser.ParseFlags | raisavis/src/main/java/raisa/comms/SampleParser.java:83-84 | each validity flag of a parsed telegram is "the effects write its angle and its distance" |
| SampleParser.AngleWriters | raisavis/src/main/java/raisa/comms/SampleParser.java:29-45 | exactly the IR/SR parts write the angle readings |
| SampleParser.DistanceWriters | raisavis/src/main/java/raisa/comms/SampleParser.java:34-52 | exactly the in-range ID/SD parts write the distance readings |
| SampleParser.WrittenByPart | raisavis/src/main/java/raisa/comms/SampleParser.java:25-82 | a reading is written by the run of parts exactly when some part writes it |
| SampleParser.AngleSeen | raisavis/src/main/java/raisa/comms/SampleParser.java:29-45 | an angle is seen exactly when the telegram has its tag |
| SampleParser.InfraredDistanceSeen | raisavis/src/main/java/raisa/comms/SampleParser.java:34-40 | the IR distance is seen exactly when some ID part's distance is inside (20, 150) |
| SampleParser.UltrasoundDistanceSeen | raisavis/src/main/java/raisa/comms/SampleParser.java:46-52 | the ultrasound distance is seen exactly when some SD part's distance is inside (15, 645) |
| SampleParser.InfraredValidity | raisavis/src/main/java/raisa/comms/SampleParser.java:29-83 | the IR reading is valid exactly when the telegram has an IR part and an in-range ID part |
| SampleParser.UltrasoundValidity | raisavis/src/main/java/raisa/comms/SampleParser.java:41-84 | the ultrasound reading is valid exactly when the telegram has an SR part and an in-range SD part |
| SampleParser.ParseFailure | raisavis/src/main/java/raisa/comms/SampleParser.java:21-30 | parse throws exactly when the telegram is valid and some value-reading part's text fails parseInt |
| SampleParser.FieldFailure | raisavis/src/main/java/raisa/comms/SampleParser.java:26-30 | a grammar field with a known value tag throws exactly when its tag has a third letter or its number is out of int range |
| SampleParser.UnknownTagExamples | raisavis/src/main/java/raisa/comms/SampleParser.java:80-81 | unknown and marker tags are ignored |
| SampleParser.LeftTicksExample | raisavis/src/main/java/raisa/comms/SampleParser.java:74-76 | RL sets the left wheel's ticks |
| SampleParser.RightTicksExample | raisavis/src/main/java/raisa/comms/SampleParser.java:77-79 | RR sets the right wheel's ticks |
| SampleParser.MalformedNumberExample | raisavis/src/main/java/raisa/comms/SampleParser.java:26-30 | a three-letter tag makes parseInt throw |
| SampleParser.OverflowExample | raisavis/src/main/java/raisa/comms/SampleParser.java:74-75 | a ten-digit tick count beyond int range makes parse throw |
| SampleParser.TenDigitsFromNine | raisavis/src/main/java/raisa/comms/SampleParser.java:75 | ten digits led by 9 are beyond int range |
| SampleParser.CalibrationZeroes | raisavis/src/main/java/raisa/comms/SampleParser.java:29-64 | the raw value equal to each calibration offset reads as zero (90 degrees for the IR angle); SR0 is -pi/2 |
| SampleParser.AccelerationWrapAround | raisavis/src/main/java/raisa/comms/SampleParser.java:57 | subtracting the calibration from Integer.MIN_VALUE wraps around to a large positive acceleration |
| SampleParser.EmptyTelegramParts | raisavis/src/main/java/raisa/comms/SampleParser.java:24 | `STA;END;` splits into STA and END |
| SampleParser.MarkersDecode | raisavis/src/main/java/raisa/comms/SampleParser.java:27-28 | STA and END decode to no effect |
| SampleParser.EmptyTelegram | raisavis/src/main/java/raisa/comms/SampleParser.java:14-88 | `STA;END;` parses to the fresh sample with both validity flags false |
| SampleParser.InfraredExampleParts | raisavis/src/main/java/raisa/comms/SampleParser.java:24 | the example telegram splits into its four parts |
| SampleParser.InfraredAngleExample | raisavis/src/main/java/raisa/comms/SampleParser.java:29-33 | IR90 is angle zero radians |
| SampleParser.InfraredDistanceExample | raisavis/src/main/java/raisa/comms/SampleParser.java:34-40 | ID300 writes the curve's distance when it is inside (20, 150) and nothing otherwise |
| SampleParser.InfraredExampleEffects | raisavis/src/main/java/raisa/comms/SampleParser.java:26-40 | the example's parts decode to their effects |
| SampleParser.InfraredExampleDecode | raisavis/src/main/java/raisa/comms/SampleParser.java:25-82 | the example decodes to those effects |
| SampleParser.InfraredExample | raisavis/src/main/java/raisa/comms/SampleParser.java:14-88 | `STA;IR90;ID300;END;` parses with IR angle 0, IR validity equal to the range test on the ID300 distance, and ultrasound invalid |
| VisSample.Pose | raisavis/src/main/java/raisa/vis/Sample.java:15-18 | the map holds exactly "x", "y" and "heading" with the given values, none of them a two-letter reading key; a later CD part overwrites "heading" (ConstructPose) |
| VisSample.IntPuts | raisavis/src/main/java/raisa/vis/Sample.java:27-46 | the IR, ID, SR, SD and CD branches put one value under the tag's key; CD puts a second, identical value under "heading" |
| VisSample.FloatPuts | raisavis/src/main/java/raisa/vis/Sample.java:47-64 | the accelerometer and gyro branches put one value under the tag's key, AY/AZ and GY/GZ under each other's key |
| VisSample.PartPuts | raisavis/src/main/java/raisa/vis/Sample.java:24-66 | a part throws exactly when its tag reads a number and the text after the tag does not parse; other tags put nothing |
| VisSample.DecodePart | raisavis/src/main/java/raisa/vis/Sample.java:24-66 | the loop body stores exactly one part's puts into the map, or fails with that part's NumberFormatException |
| VisSample.PutInt | raisavis/src/main/java/raisa/vis/Sample.java:27-46 | the IR, ID, SR, SD and CD branches store their converted value under their key (CD also under heading) |
| VisSample.PutFloat | raisavis/src/main/java/raisa/vis/Sample.java:47-64 | the accelerometer and gyro branches store their scaled value under their key |
| VisSample.Construct | raisavis/src/main/java/raisa/vis/Sample.java:14-21 | an invalid telegram gives a sample holding only x, y and heading; the string is always kept |
| VisSample.New | raisavis/src/main/java/raisa/vis/Sample.java:14-69 | the constructor's loop computes Construct |
| VisSample.StoreConcat | raisavis/src/main/java/raisa/vis/Sample.java:11 | storing two runs of puts is storing their concatenation |
| VisSample.FoldIsPutsThenStore | raisavis/src/main/java/raisa/vis/Sample.java:23-67 | the loop equals collecting every part's puts and storing them in order |
| VisSample.StoreLookup | raisavis/src/main/java/raisa/vis/Sample.java:11 | after HashMap puts, a key holds its last put value, or its old value when never put |
| VisSample.LastPutConcat | raisavis/src/main/java/raisa/vis/Sample.java:11 | the last put of a key in a concatenation comes from the later run when it has one |
| VisSample.PutsParts | raisavis/src/main/java/raisa/vis/Sample.java:23-67 | collecting puts succeeds exactly when every part's puts do |
| VisSample.LastPutOfParts | raisavis/src/main/java/raisa/vis/Sample.java:23-67 | the last put of a key comes from the last part putting under it |
| VisSample.KeyOf | raisavis/src/main/java/raisa/vis/Sample.java:28-64 | every reading tag has a two-letter lower-case key |
| VisSample.PartValueOf | raisavis/src/main/java/raisa/vis/Sample.java:27-66 | a part puts under a key exactly when that key is its tag's, and a CD part puts the same value under heading |
| VisSample.PartPose | raisavis/src/main/java/raisa/vis/Sample.java:16-46 | only a CD part puts a pose key, and it puts "heading" |
| VisSample.KeyOfInjective | raisavis/src/main/java/raisa/vis/Sample.java:28-64 | distinct tags use distinct keys |
| VisSample.PartKey | raisavis/src/main/java/raisa/vis/Sample.java:27-66 | a part puts under a tag's key exactly when it carries that tag |
| VisSample.HeadingFollowsCompass | raisavis/src/main/java/raisa/vis/Sample.java:43-46 | after the puts of a valid telegram, the last value put under "heading" equals the last value put under "cd" (both the compass in radians, unshifted) |
| VisSample.ConstructPose | raisavis/src/main/java/raisa/vis/Sample.java:14-46 | x and y are as given; the heading is the compass value when present, else as given |
| VisSample.ReadingOfParts | raisavis/src/main/java/raisa/vis/Sample.java:23-67 | a reading key holds the last part with that tag's value, and is absent when no part has it |
| VisSample.ConstructReading | raisavis/src/main/java/raisa/vis/Sample.java:14-69 | the same for a successfully constructed sample |
| VisSample.HasPose | raisavis/src/main/java/raisa/vis/Sample.java:75-85 | the three keys the getters unbox without a check are present (the constructor always puts them: ConstructPose) |
| VisSample.IsIrSpot | raisavis/src/main/java/raisa/vis/Sample.java:71-73 | isIrSpot: both "ir" and "id" are present |
| VisSample.SpotAt | raisavis/src/main/java/raisa/vis/Sample.java:97-98 | a reading at an angle and a distance in world coordinates: the robot position moved the distance along the bearing; a zero distance gives the robot position |
| VisSample.IrSpot | raisavis/src/main/java/raisa/vis/Sample.java:87-100 | without both "ir" and "id" the spot is the robot position; with them it lies "id" away from the robot at the bearing ir + heading - pi/2 |
| VisSample.SrSpot | raisavis/src/main/java/raisa/vis/Sample.java:102-115 | throws exactly when "sr" is present and "sd" is not; without "sr" the spot is the robot position; with both it lies "sd" away at the bearing sr + heading - pi/2 |
| VisSample.SpotDistance | raisavis/src/main/java/raisa/vis/Sample.java:97-98 | a spot at distance d lies d away from the robot |
| VisSample.IrSpotDistance | raisavis/src/main/java/raisa/vis/Sample.java:87-100 | the IR spot lies exactly the IR distance from the robot |
| VisSample.IrDirection | raisavis/src/main/java/raisa/vis/Sample.java:127-129 | getIrDirection throws exactly when "ir" is missing |
| VisSample.AccelerationAsWritten | raisavis/src/main/java/raisa/vis/Sample.java:131-136 | as written, a missing component throws a ClassCastException |
| VisSample.AngularAccelerationAsWritten | raisavis/src/main/java/raisa/vis/Sample.java:138-143 | as written, a missing gyro component throws a ClassCastException |
| VisSample.Acceleration | raisavis/src/main/java/raisa/vis/Sample.java:131-136 | intended behaviour: each component is its stored value, or 0 when missing, so it agrees with the code whenever the code does not throw |
| VisSample.AngularAcceleration | raisavis/src/main/java/raisa/vis/Sample.java:138-143 | each gyro component is its stored value, or 0 when missing, so it agrees with the code whenever the code does not throw |
| VisSample.KeyPresent | raisavis/src/main/java/raisa/vis/Sample.java:14-69 | a constructed sample holds a tag's key exactly when the telegram has that tag |
| VisSample.IrSpotOfTelegram | raisavis/src/main/java/raisa/vis/Sample.java:71-73 | isIrSpot holds exactly when the telegram has both IR and ID |
| VisSample.IrSpotKeys | raisavis/src/main/java/raisa/vis/Sample.java:71-73 | isIrSpot is "ir" and "id" both present |
| VisSample.IrDirectionOfTelegram | raisavis/src/main/java/raisa/vis/Sample.java:127-129 | getIrDirection throws exactly when the telegram has no IR part |
| VisSample.SrSpotOfTelegram | raisavis/src/main/java/raisa/vis/Sample.java:102-115 | on a constructed sample getSrSpot throws exactly when the telegram has an SR part and no SD part; otherwise it succeeds |
| VisSample.SrSpotKeys | raisavis/src/main/java/raisa/vis/Sample.java:102-115 | getSrSpot throws exactly when "sr" is present and "sd" is absent |
| VisSample.AccelerationOfTelegram | raisavis/src/main/java/raisa/vis/Sample.java:131-136 | as written, getAcceleration succeeds exactly when the telegram has AX, AY and AZ |
| VisSample.AngularAccelerationOfTelegram | raisavis/src/main/java/raisa/vis/Sample.java:138-143 | as written, getAngularAcceleration succeeds exactly when it has GX, GY and GZ |
| VisSample.AccelerationKeys | raisavis/src/main/java/raisa/vis/Sample.java:131-136 | getAcceleration succeeds exactly when the three keys are present |
| VisSample.AngularAccelerationKeys | raisavis/src/main/java/raisa/vis/Sample.java:138-143 | the same for the gyro keys |
| VisSample.EmptyTelegramConstruct | raisavis/src/main/java/raisa/vis/Sample.java:14-21 | `STA;END;` gives a sample with only the pose |
| VisSample.MarkersFold | raisavis/src/main/java/raisa/vis/Sample.java:25-26 | STA and END put nothing |
| VisSample.EmptyTelegramAcceleration | raisavis/src/main/java/raisa/vis/Sample.java:131-136 | on `STA;END;` the code as written throws where zero was intended |
| VisSample.PartAgrees | raisavis/src/main/java/raisa/vis/Sample.java:27-64 | a part with a shared tag stores the value the parser writes to the same reading (CD plus pi/2) |
| VisSample.FloatAgrees | raisavis/src/main/java/raisa/vis/Sample.java:47-64 | parseFloat and parseInt agree on a valid telegram's value text |
| VisSample.IntAgrees | raisavis/src/main/java/raisa/vis/Sample.java:27-46 | both parsers read the same integer |
| VisSample.SharedWriters | raisavis/src/main/java/raisa/comms/SampleParser.java:29-73 | the parser's last writer of a shared reading is the last part with that tag |
| VisSample.AgreeOnParts | raisavis/src/main/java/raisa/vis/Sample.java:23-67 | over a run of parts, both parsers store the same value for every shared reading |
| VisSample.AgreesWithParser | raisavis/src/main/java/raisa/vis/Sample.java:14-69 | when both succeed, the map holds an IR, SR, CD or gyro key exactly when the parsed sample has that reading, with the same value (CD plus pi/2) |
| World.TakeLast | raisavis/src/main/java/raisa/domain/WorldModel.java:124-132 | the last n elements, or all of them when fewer |
| World.Step | raisavis/src/main/java/raisa/domain/WorldModel.java:87-88 | one step of a track: the distance between its consecutive positions, negated when the newer state drives it backwards |
| World.Travel | raisavis/src/main/java/raisa/domain/WorldModel.java:83-94 | the steps of a track summed over consecutive states, as the loop accumulates them (TravelSnoc, TravelOneDirection) |
| World.Intervals | raisavis/src/main/java/raisa/domain/WorldModel.java:81-93 | the time between consecutive states summed as the loop accumulates it (IntervalsTelescope) |
| World.TrackSpeed | raisavis/src/main/java/raisa/domain/WorldModel.java:75-97 | a track's speed: 0 below two states, else its travel over a tenth of the summed intervals by float division (TrackSpeedOverElapsed) |
| World.Speeds | raisavis/src/main/java/raisa/domain/WorldModel.java:95-96 | the left and right track speeds together |
| World.IndexOf | raisavis/src/main/java/raisa/domain/WorldModel.java:222 | the first index of an element that is present |
| World.RemoveFirst | raisavis/src/main/java/raisa/domain/WorldModel.java:222 | List.remove of an absent element changes nothing |
| World.RemoveFirstSplits | raisavis/src/main/java/raisa/domain/WorldModel.java:222 | the first occurrence is cut out, leaving what was before and after it |
| World.RemoveFromDistinct | raisavis/src/main/java/raisa/domain/WorldModel.java:214-223 | removing from a duplicate-free list removes exactly that listener and keeps it duplicate-free |
| World.SampleNotes | raisavis/src/main/java/raisa/domain/WorldModel.java:229-233 | one notification per sample listener, in order |
| World.RobotNotes | raisavis/src/main/java/raisa/domain/WorldModel.java:235-239 | one notification per robot listener, in order |
| World.FixAll | raisavis/src/main/java/raisa/domain/WorldModel.java:52-54 | one updated state per fixer, in order |
| World.FixAllConcat | raisavis/src/main/java/raisa/domain/WorldModel.java:52-54 | fixing two runs of fixers is fixing them one after the other |
| World.RunFixers | raisavis/src/main/java/raisa/domain/WorldModel.java:52-54 | the fixer loop applies every fixer to the sample |
| World.ResetFixers | raisavis/src/main/java/raisa/domain/WorldModel.java:112-114 | every fixer is reset |
| World.IntervalsTelescope | raisavis/src/main/java/raisa/domain/WorldModel.java:89 | the sum of the intervals between states is the last time minus the first |
| World.TrackSpeedOverElapsed | raisavis/src/main/java/raisa/domain/WorldModel.java:95-96 | a track speed is the signed travel over a tenth of the elapsed milliseconds; infinity or NaN when no time elapsed |
| World.RepeatIsProduct | raisavis/src/main/java/raisa/domain/WorldModel.java:87-88 | n equal steps travel n times the step |
| World.SteadyTravel | raisavis/src/main/java/raisa/domain/WorldModel.java:87-88 | states moving the same amount each interval travel that amount times the intervals |
| World.SteadyTravelRepeats | raisavis/src/main/java/raisa/domain/WorldModel.java:87-88 | steady travel is a repeat of one step |
| World.TravelSnoc | raisavis/src/main/java/raisa/domain/WorldModel.java:83-94 | one more state adds its step's distance |
| World.SteadyElapsed | raisavis/src/main/java/raisa/domain/WorldModel.java:89 | steady timing gives elapsed time of the interval times the count |
| World.IntervalsSnoc | raisavis/src/main/java/raisa/domain/WorldModel.java:89 | one more state adds its interval |
| World.OneMoreInterval | raisavis/src/main/java/raisa/domain/WorldModel.java:89 | arithmetic of one more equal interval |
| World.SpeedRatio | raisavis/src/main/java/raisa/domain/WorldModel.java:95-96 | n equal steps over n equal intervals is one step over one interval |
| World.SteadyTrackSpeed | raisavis/src/main/java/raisa/domain/WorldModel.java:74-100 | a track moving the same step every equal interval gets speed 10 * step / interval |
| World.TravelOneDirection | raisavis/src/main/java/raisa/domain/WorldModel.java:87-88 | when a track keeps one direction, its travel is that direction's sign times its path length |
| World.TrackSpeeds | raisavis/src/main/java/raisa/domain/WorldModel.java:74-100 | the loop computes both tracks' speeds as specified: 0 for fewer than two states |
| World.SpeedLoopStep | raisavis/src/main/java/raisa/domain/WorldModel.java:83-94 | one loop step adds one interval's travel |
| World.WorldModel.Valid | raisavis/src/main/java/raisa/domain/WorldModel.java:32-35 | the class invariant: at least one state (the constructor adds one) and no sample listener registered twice (the contains check at lines 214-219) |
| World.WorldModel.constructor | raisavis/src/main/java/raisa/domain/WorldModel.java:32-35 | one initial state with zero speeds, one averaging fixer, no samples, listeners or grid edits |
| World.WorldModel.GetStates | raisavis/src/main/java/raisa/domain/WorldModel.java:41-47 | a copy of the state history |
| World.WorldModel.GetLatestState | raisavis/src/main/java/raisa/domain/WorldModel.java:102-107 | the last state, or null exactly when there are none |
| World.WorldModel.SampleReceived | raisavis/src/main/java/raisa/domain/WorldModel.java:49-56 | a parse failure changes nothing; otherwise the sample goes through every fixer, then is stored and announced |
| World.WorldModel.AddSample | raisavis/src/main/java/raisa/domain/WorldModel.java:58-61 | appends the sample and notifies each sample listener |
| World.WorldModel.NotifySampleListeners | raisavis/src/main/java/raisa/domain/WorldModel.java:229-233 | one notification per listener, nothing else changes |
| World.WorldModel.AddState | raisavis/src/main/java/raisa/domain/WorldModel.java:63-69 | appends the state with its track speeds and notifies robot listeners |
| World.WorldModel.CalculateSpeed | raisavis/src/main/java/raisa/domain/WorldModel.java:74-100 | only the latest state changes, getting the speeds of the last five states |
| World.WorldModel.NotifyRobotListeners | raisavis/src/main/java/raisa/domain/WorldModel.java:235-239 | one notification per robot listener |
| World.WorldModel.Reset | raisavis/src/main/java/raisa/domain/WorldModel.java:109-121 | samples emptied, the start state alone with zero speeds, every fixer reset, the last map reloaded (or a fresh grid) and robot listeners told |
| World.WorldModel.RemoveOldSamples | raisavis/src/main/java/raisa/domain/WorldModel.java:123-125 | keeps only the last n samples |
| World.WorldModel.ClearSamples | raisavis/src/main/java/raisa/domain/WorldModel.java:127-129 | no samples remain |
| World.WorldModel.GetLastSamples | raisavis/src/main/java/raisa/domain/WorldModel.java:131-133 | the last n samples, a suffix of the history |
| World.WorldModel.LoadMap | raisavis/src/main/java/raisa/domain/WorldModel.java:179-188 | a read map becomes the grid image and the reload file; a failed read changes nothing |
| World.WorldModel.AddSampleListener | raisavis/src/main/java/raisa/domain/WorldModel.java:214-219 | the listener is registered once, whatever was there before |
| World.WorldModel.RemoveSampleListener | raisavis/src/main/java/raisa/domain/WorldModel.java:221-223 | the listener is no longer registered and the others stay |
| World.WorldModel.AddRobotListener | raisavis/src/main/java/raisa/domain/WorldModel.java:225-227 | the listener is appended |
| MovementEstimator.TripsOf | raisavis/src/main/java/raisa/domain/robot/SimpleRobotMovementEstimator.java:23-31 | wheel ticks when either is non-zero, else the odometer trips |
| MovementEstimator.TickTrips | raisavis/src/main/java/raisa/domain/robot/SimpleRobotMovementEstimator.java:24-25 | each track's trip from its ticks: wheel diameter times ticks times radians per tick, halved |
| MovementEstimator.Translate | raisavis/src/main/java/raisa/domain/robot/SimpleRobotMovementEstimator.java:34-38 | a track position moved by the trip along the heading: (x + trip sin h, y - trip cos h) (TranslateMovesTrip) |
| MovementEstimator.NextHeading | raisavis/src/main/java/raisa/domain/robot/SimpleRobotMovementEstimator.java:46-50 | the compass when enabled outside particle mode, else the old heading plus the trip difference over the robot width |
| MovementEstimator.Noise | raisavis/src/main/java/raisa/domain/robot/SimpleRobotMovementEstimator.java:53-59 | the particle-mode offset: radius draw times 5 along the angle draw times 2 pi (NoiseIsBounded) |
| MovementEstimator.HeadingNoise | raisavis/src/main/java/raisa/domain/robot/SimpleRobotMovementEstimator.java:60 | the particle-mode heading offset: (draw * 8 - 4) degrees in radians (HeadingNoiseIsBounded) |
| MovementEstimator.MoveRobot | raisavis/src/main/java/raisa/domain/robot/SimpleRobotMovementEstimator.java:21-22 | a null state gives a fresh state (the other cases: the lemmas below) |
| MovementEstimator.NoMovementIsNoOp | raisavis/src/main/java/raisa/domain/robot/SimpleRobotMovementEstimator.java:29-30 | zero trips leave the robot as it was |
| MovementEstimator.TicksTakePrecedence | raisavis/src/main/java/raisa/domain/robot/SimpleRobotMovementEstimator.java:23-28 | ticks are used whenever present |
| MovementEstimator.OdometerStep | raisavis/src/main/java/raisa/domain/robot/SimpleRobotMovementEstimator.java:26-44 | without ticks each track moves a tenth of its odometer reading and both count as forward |
| MovementEstimator.DirectionFlags | raisavis/src/main/java/raisa/domain/robot/SimpleRobotMovementEstimator.java:40-41 | a track is forward exactly when its tick count is not negative |
| MovementEstimator.TracksMoveByTheirTrips | raisavis/src/main/java/raisa/domain/robot/SimpleRobotMovementEstimator.java:33-44 | without noise each track is translated by its own trip along the old heading |
| MovementEstimator.TranslateMovesTrip | raisavis/src/main/java/raisa/domain/robot/SimpleRobotMovementEstimator.java:33-38 | a translation moves (trip sin h, -trip cos h), exactly the trip's distance |
| MovementEstimator.TripSquared | raisavis/src/main/java/raisa/domain/robot/SimpleRobotMovementEstimator.java:33-38 | the squared length of a trip along a unit vector |
| MovementEstimator.HeadingRule | raisavis/src/main/java/raisa/domain/robot/SimpleRobotMovementEstimator.java:46-50 | outside particle mode the heading is the compass when enabled, else the old heading plus the trip difference over the robot width |
| MovementEstimator.ParticleHeadingIgnoresCompass | raisavis/src/main/java/raisa/domain/robot/SimpleRobotMovementEstimator.java:46-60 | in particle mode the heading is track-derived plus heading noise, whatever the compass setting |
| MovementEstimator.NoiseKeepsTrackVector | raisavis/src/main/java/raisa/domain/robot/SimpleRobotMovementEstimator.java:52-61 | noise moves both tracks by the same offset, keeping the vector between them, and adds the heading noise |
| MovementEstimator.NoiseIsBounded | raisavis/src/main/java/raisa/domain/robot/SimpleRobotMovementEstimator.java:53-59 | the position noise is shorter than the noise magnitude |
| MovementEstimator.SquareBelow | raisavis/src/main/java/raisa/domain/robot/SimpleRobotMovementEstimator.java:53-59 | a value below a bound in magnitude has a square below its square |
| MovementEstimator.HeadingNoiseIsBounded | raisavis/src/main/java/raisa/domain/robot/SimpleRobotMovementEstimator.java:60 | the heading noise lies in [-4, 4) degrees |
| Servo.Next | raisavis/src/main/java/raisa/simulator/RotatingServo.java:19-31 | the heading moves by speed times time in the current direction; the direction turns at or past either end and is kept inside |
| Servo.Scans | raisavis/src/main/java/raisa/simulator/RotatingServo.java:21-27 | the heading is reported once, twice at or past the low end |
| Servo.Sweeping | raisavis/src/main/java/raisa/simulator/RotatingServo.java:19-31 | the servo invariant: direction LEFT or RIGHT, heading within one step of -90..90, and past either end already heading back |
| Servo.Run | raisavis/src/main/java/raisa/simulator/RotatingServo.java:19-31 | the state after a run of rotate calls, one Next per timestep (RunKeepsSweeping) |
| Servo.StartIsSweeping | raisavis/src/main/java/raisa/simulator/RotatingServo.java:14-17 | the initial servo is sweeping |
| Servo.NextKeepsSweeping | raisavis/src/main/java/raisa/simulator/RotatingServo.java:19-31 | a bounded step keeps the servo sweeping |
| Servo.RunKeepsSweeping | raisavis/src/main/java/raisa/simulator/RotatingServo.java:19-31 | any run of bounded steps keeps the heading within one step of -90..90 |
| Servo.RotatingServo.constructor | raisavis/src/main/java/raisa/simulator/RotatingServo.java:14-17 | centred, turning right, nothing scanned |
| Servo.RotatingServo.Rotate | raisavis/src/main/java/raisa/simulator/RotatingServo.java:19-32 | the new state is Next of the old and the reported headings are Scans |
| Servo.RotatingServo.Scan | raisavis/src/main/java/raisa/simulator/RotatingServo.java:34-36 | one report, heading and direction unchanged |
| Servo.RotatingServo.GetHeading | raisavis/src/main/java/raisa/simulator/RotatingServo.java:38-40 | the current heading |
| Config.DefaultSlamHasNoAlgorithms | raisavis/src/main/java/raisa/config/VisualizerConfig.java:20-62 | the default mode is SLAM yet no algorithm is activated and nothing counts as changed |
| Config.Defaults | raisavis/src/main/java/raisa/config/VisualizerConfig.java:20-62 | the field initialisers and the private constructor's assignments |
| Config.MarkChanged | raisavis/src/main/java/raisa/config/VisualizerConfig.java:122-124 | setChanged: the item is appended to the change list and nothing else changes |
| Config.AddAlgorithm | raisavis/src/main/java/raisa/config/VisualizerConfig.java:169-172 | the algorithm is active afterwards, no other algorithm changes, and ActivatedAlgorithms is recorded even when it was already active |
| Config.RemoveAlgorithm | raisavis/src/main/java/raisa/config/VisualizerConfig.java:174-177 | the algorithm is inactive afterwards, no other changes, and the change is always recorded |
| Config.AddMeasurement | raisavis/src/main/java/raisa/config/VisualizerConfig.java:141-144 | the measurement is displayed afterwards, no other one changes, and the change is always recorded |
| Config.RemoveMeasurement | raisavis/src/main/java/raisa/config/VisualizerConfig.java:146-149 | the measurement is hidden afterwards, no other one changes, and the change is always recorded |
| Config.AddControl | raisavis/src/main/java/raisa/config/VisualizerConfig.java:155-158 | the control is displayed afterwards, no other one changes, and the change is always recorded |
| Config.RemoveControl | raisavis/src/main/java/raisa/config/VisualizerConfig.java:160-163 | the control is hidden afterwards, no other one changes, and the change is always recorded |
| Config.AddMapAreaElement | raisavis/src/main/java/raisa/config/VisualizerConfig.java:183-186 | the element is displayed afterwards, no other one changes, and the change is always recorded |
| Config.RemoveMapAreaElement | raisavis/src/main/java/raisa/config/VisualizerConfig.java:188-191 | the element is hidden afterwards, no other one changes, and the change is always recorded |
| Config.WithControllerType | raisavis/src/main/java/raisa/config/VisualizerConfig.java:76-81 | a different controller type is stored and marks a change; the same one changes nothing |
| Config.WithInputOutputTarget | raisavis/src/main/java/raisa/config/VisualizerConfig.java:87-92 | the same for the input/output target |
| Config.WithLocalizationMode | raisavis/src/main/java/raisa/config/VisualizerConfig.java:94-103 | the mode is stored, and setting the current mode changes nothing |
| Config.Notifications | raisavis/src/main/java/raisa/config/VisualizerConfig.java:126-129 | one notification per listener |
| Config.IsChangedSpec | raisavis/src/main/java/raisa/config/VisualizerConfig.java:109-116 | isChanged: one of the asked items or the wildcard ALL_CONFIG_ITEMS was recorded |
| Config.Notify | raisavis/src/main/java/raisa/config/VisualizerConfig.java:126-131 | notifyVisualizerConfigListeners: one call per listener with the pending items is appended to the log, the change list is emptied, and nothing else changes |
| Config.SettersAreIdempotent | raisavis/src/main/java/raisa/config/VisualizerConfig.java:76-103 | applying a setter twice is applying it once |
| Config.SetterRecordsChange | raisavis/src/main/java/raisa/config/VisualizerConfig.java:76-92 | after a setter its item counts as changed exactly when it already did or the value differed |
| Config.SwitchToSlam | raisavis/src/main/java/raisa/config/VisualizerConfig.java:94-103 | switching to SLAM activates both landmark extractions and records them and the mode; nothing else moves |
| Config.SwitchAwayFromSlam | raisavis/src/main/java/raisa/config/VisualizerConfig.java:94-103 | switching to another mode only records the mode change: the activated algorithms stay |
| Config.SetEditsAlwaysRecord | raisavis/src/main/java/raisa/config/VisualizerConfig.java:141-191 | every set edit records its item, even when it leaves the set as it was |
| Config.MarkedIsChanged | raisavis/src/main/java/raisa/config/VisualizerConfig.java:109-124 | a recorded item counts as changed, and the wildcard item makes everything count |
| Config.NotifyClears | raisavis/src/main/java/raisa/config/VisualizerConfig.java:126-131 | after notifying nothing counts as changed, and each listener was told the pending items |
| Config.VisualizerConfig.constructor | raisavis/src/main/java/raisa/config/VisualizerConfig.java:43-62 | the default settings |
| Config.VisualizerConfig.SetControllerType | raisavis/src/main/java/raisa/config/VisualizerConfig.java:76-81 | the new state is WithControllerType of the old |
| Config.VisualizerConfig.SetInputOutputTarget | raisavis/src/main/java/raisa/config/VisualizerConfig.java:87-92 | the new state is WithInputOutputTarget of the old |
| Config.VisualizerConfig.SetLocalizationMode | raisavis/src/main/java/raisa/config/VisualizerConfig.java:94-103 | the new state is WithLocalizationMode of the old |
| Config.VisualizerConfig.IsChanged | raisavis/src/main/java/raisa/config/VisualizerConfig.java:109-116 | true exactly when one of the items or the wildcard was recorded |
| Config.VisualizerConfig.AddVisualizerConfigListener | raisavis/src/main/java/raisa/config/VisualizerConfig.java:118-120 | the listener is appended |
| Config.VisualizerConfig.SetChanged | raisavis/src/main/java/raisa/config/VisualizerConfig.java:122-124 | records the item, nothing else changes |
| Config.VisualizerConfig.NotifyVisualizerConfigListeners | raisavis/src/main/java/raisa/config/VisualizerConfig.java:126-131 | every listener gets the pending items, which are then cleared |
| Config.VisualizerConfig.SetDisplayMinAgeForParticles | raisavis/src/main/java/raisa/config/VisualizerConfig.java:137-139 | stores the age without marking a change |
| Config.VisualizerConfig.AddDisplayedMeasurement | raisavis/src/main/java/raisa/config/VisualizerConfig.java:141-144 | the measurement is in the set and a change is marked |
| Config.VisualizerConfig.RemoveDisplayedMeasurement | raisavis/src/main/java/raisa/config/VisualizerConfig.java:146-149 | the measurement is out of the set and a change is marked |
| Config.VisualizerConfig.AddDisplayedControl | raisavis/src/main/java/raisa/config/VisualizerConfig.java:155-158 | the control is in the set and a change is marked |
| Config.VisualizerConfig.RemoveDisplayedControl | raisavis/src/main/java/raisa/config/VisualizerConfig.java:160-163 | the control is out of the set and a change is marked |
| Config.VisualizerConfig.AddActivatedAlgorithm | raisavis/src/main/java/raisa/config/VisualizerConfig.java:169-172 | the algorithm is in the set and a change is marked |
| Config.VisualizerConfig.RemoveActivatedAlgorithm | raisavis/src/main/java/raisa/config/VisualizerConfig.java:174-177 | the algorithm is out of the set and a change is marked |
| Config.VisualizerConfig.AddDisplayedMapAreaElement | raisavis/src/main/java/raisa/config/VisualizerConfig.java:183-186 | the element is in the set and a change is marked |
| Config.VisualizerConfig.RemoveDisplayedMapAreaElement | raisavis/src/main/java/raisa/config/VisualizerConfig.java:188-191 | the element is out of the set and a change is marked |
| Config.VisualizerConfig.SetSimulatorTicksPerSecond | raisavis/src/main/java/raisa/config/VisualizerConfig.java:197-199 | stores the rate without marking a change |
| Config.VisualizerConfig.SetSimulatorServoDegreesPerSecond | raisavis/src/main/java/raisa/config/VisualizerConfig.java:205-207 | stores the servo speed without marking a change |
| Config.VisualizerConfig.SetSimulatorRealTime | raisavis/src/main/java/raisa/config/VisualizerConfig.java:217-219 | stores the flag without marking a change |
| Config.VisualizerConfig.SetUseCompass | raisavis/src/main/java/raisa/config/VisualizerConfig.java:221-223 | stores the flag without marking a change |

## Left out

- Floating point: `float`/`double` values are reals, so rounding, overflow to infinity in sums and NaN propagation outside division are not modelled.
- `Math.sin`, `Math.cos`, `Math.pow`, `Math.sqrt` and `Math.atan2` are parameters; the facts a proof needs about them (a unit direction, a square root of a square) are preconditions.
- The three `RandomUtil.random()` draws of particle mode are unconstrained parameters of MovementEstimator.MoveRobot; MovementEstimator.NoiseIsBounded and MovementEstimator.HeadingNoiseIsBounded assume each lies in [0, 1), the range `random()` returns.
- The `System.out.println("INVALID SAMPLE! ...")` console output for an invalid telegram (SampleParser.java:22, Sample.java:20) is not modelled; only the sample returned is.
- `new Robot()`, `new RobotState()` and the fixers' `fix`/`reset` (AveragingSampleFixer) are passed in as values and functions; those classes are not part of this model.
- The Grid delegates of WorldModel (lines 135-169 and 190-212: setGridPosition, setUserPosition, the undo and redo calls, resetMap, traceRay, getWidth, getHeight, isClear) are left out, as is the Grid class. Only the two grid calls `loadMap` makes (pushing an undo level and setting the user image) are recorded, in the grid call log.
- `saveMap` and the image reading inside `loadMap` are file I/O; `LoadMap` takes the read's outcome as a parameter.
- Threads, `synchronized`, and the listener callbacks' own effects are left out; a notification is an entry in an event log.
- `VisualizerConfig.getInstance` (the lazily created singleton) and the plain getters are left out; `State()` exposes every field.
- Enum constants that the core files do not name are modelled as one `Other(name)` case per enum.
- `long` timestamps are unbounded integers: their overflow is not modelled.
- World.WorldModel.RemoveOldSamples: takes a `nat`; a negative count, which `CollectionUtil.takeLast` would handle, is not modelled, and `CollectionUtil` is not part of this model.
- World.WorldModel.GetLastSamples: takes a `nat` for the same reason.
- MovementEstimator.MoveRobot: requires a non-zero robot width, which the source takes from a constant defined elsewhere; its own ensures covers only the null state, and the lemmas after it state the moving cases.
- Telegram.ParseFloat: accepts only signed decimal integers; Java's other float forms (fractions, exponents, `NaN`, hexadecimal) cannot follow a two-letter tag in a valid telegram.
- Geometry.SquaredDistance: states only non-negativity and the zero distance, not the metric properties.
- `getX`, `getY`, `getHeading` and `getRobot` of `raisa.vis.Sample` unbox the pose keys and are not modelled as members; VisSample.HasPose and VisSample.ConstructPose state what they would return. Its `isValid` is the same expression as SampleParser's and is modelled by Telegram.IsValid.
- `WorldModel.getSamples` returns the sample list itself; the model reads the `samples` field directly, so the aliasing of the returned list is not captured.
- Robot and RobotState objects are values in this model, so their aliasing is not captured. In the source, `addState` stores the caller's own Robot (WorldModel.java:65). `calculateSpeed` then sets the speeds on that same object through `getLatestState` (lines 98-99), which returns the live object. `moveRobot` adds the particle noise to a Vector2D it has already passed to `setPosition…Track` (SimpleRobotMovementEstimator.java:43-44, 56-59). The model assumes the setter keeps that reference, so the noise reaches the result. The effects are stated on WorldModel's own state and on MoveRobot's returned value.
- Telegram.ParseInt: accepts only the ASCII digits '0'-'9'. Java's `Integer.parseInt` also accepts other Unicode decimal digits, but the `[0-9]` of `isValid` rejects those first, so no valid telegram reaches them.
- SampleParser.Parse and VisSample.New return a failure value where the source throws NumberFormatException.

## Findings

| source | as written | input that shows it | evidently intended | confidence | as-written member | corrected member |
|---|---|---|---|---|---|---|
| raisavis/src/main/java/raisa/vis/Sample.java:131-143 | `getAcceleration`/`getAngularAcceleration` box the literal `0` as an Integer when a component is missing, so the cast to Float throws ClassCastException | the telegram `STA;END;` (no AX/AY/AZ, no GX/GY/GZ) | a missing component reads as 0 | not executed | VisSample.AccelerationAsWritten, VisSample.EmptyTelegramAcceleration | VisSample.Acceleration, VisSample.AngularAcceleration |
