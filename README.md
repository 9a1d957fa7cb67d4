# Robot agent core, modelled in Dafny

This project models the control software of the search-and-rescue robot
agent in `TDDD07_lab_release/robot_agent`. The agent is a single-threaded C
program. A cyclic executive runs seven tasks over a small shared state:

- **mission**: victims and commands;
- **navigate**: the pheromone map and the next move;
- **control**: odometry, the particle filter's motion update and the drive command;
- **refine**: RFID tags and the particle filter's measurement update;
- **report**: newly found victims;
- **communicate**: UDP frames out and in;
- **avoid**: the light bumper.

The tasks talk through a send list, two FIFO queues and three one-slot
pipes.

The model treats the outside world as inputs:

- the clock is a `Timeval` parameter;
- the `rand()` values are sequences of draws;
- the bytes read from the mobile base, the RFID reader and the UDP socket are
  parameters;
- the commands written to the mobile base and the frames broadcast are
  recorded in sequences.

Once these are inputs, every operation is deterministic.

One Dafny module per C component:

| module | file | models |
|---|---|---|
| General | general.dfy | 16-bit word packing, the midpoint-circle disk fill, C integer conversions |
| Records | records.dfy | the record types of def.h, robot.h, protocol.h and pheromone.h, and the configuration constants |
| Text | text.dfy | `%d`, `strtol` and `strtok` over `seq<char>` |
| TimeLib | timelib.dfy | `struct timeval` arithmetic |
| DoublyLinkedList | doublylinkedlist.dfy | the tagged send list (class `List`) |
| Fifo | queue.dfy | the tagged FIFO (class `Queue`), including its stale tail pointer |
| Environment | environment.dfy | tag classification and the room's bounding box (class `Env`) |
| Robots | robots.dfy | the robot record operations and the particle weighting rules |
| ParticleFilter | pf.dfy | the particle array and its updates (class `Filter`) |
| PheromoneMap | pheromone.dfy | the grid, stencils, deposit, extraction into sectors and merge (class `Pheromones`) |
| Protocol | protocol.dfy | the comma-separated wire codec with its receive filters |
| OpenInterface | openinterface.dfy | the iRobot Create command frames and sensor-packet decoding (class `Sensors`) |
| Rfid | rfid.dfy | the RFID tag-frame recogniser (class `Reader`) |
| TaskControl, TaskRefine, TaskCommunicate, TaskAvoid | taskcontrol.dfy, taskrefine.dfy, taskcommunicate.dfy, taskavoid.dfy | the bodies of four tasks |
| Tasks | tasks.dfy | the agent's global state (class `Agent`) and the seven tasks as its methods |
| CyclicExecutive | scheduler.dfy | the scheduler's timers and task dispatch (class `Scheduler`) |

Code that updates state in place is modelled as classes:

- The containers are classes over `seq<Payload>`.
- The particle filter keeps its particles in an `array<Robot>`.
- The pheromone grid is an `array2<int>`.

Each method states its new state in terms of specification functions, and
lemmas prove what the source promises about those functions:

- round trips of the codec;
- first-match searches;
- monotone merges;
- the FIFO order of the queues;
- no victim id is stored twice;
- the scheduler's cycle timer does not drift.

The agent's invariant holds after every task:

- channels hold only records their readers accept;
- victim ids are distinct, and the victims fit the 100-entry array;
- the map and the filter are well formed.

C's fixed-width arithmetic is written out where it matters:

- 32-bit wrap-around for `int` and `unsigned int`;
- truncating division and conversion of `double` to `int`;
- `signed char` truncation of the data type.

The one place it is not written out is the narrowing of decoded integer fields to `int` (see "## Left out").

## Model

| member | source | states |
|---|---|---|
| DoublyLinkedList.List.Last | TDDD07_lab_release/robot_agent/src/doublylinkedlist.c:275-288 | the `last` node holds the final record of the list, and there is none exactly when the list is empty |
| DoublyLinkedList.List.First | TDDD07_lab_release/robot_agent/src/doublylinkedlist.c:205-266 | the `first` node holds the first record of the list, and there is none exactly when the list is empty |
| DoublyLinkedList.List.constructor | TDDD07_lab_release/robot_agent/src/doublylinkedlist.c:29-40 | a new list has no nodes, a count of 0 and null first and last |
| DoublyLinkedList.List.InsertAfter | TDDD07_lab_release/robot_agent/src/doublylinkedlist.c:63-124 | the record goes in right after node k, the others keep their order, the count grows by one, `last` moves only when node k was last and `first` never moves |
| DoublyLinkedList.List.InsertBefore | TDDD07_lab_release/robot_agent/src/doublylinkedlist.c:134-195 | the record goes in right before node k, the others keep their order, the count grows by one, `first` moves only when k was first and `last` never moves |
| DoublyLinkedList.List.InsertBeginning | TDDD07_lab_release/robot_agent/src/doublylinkedlist.c:205-266 | the record becomes the first node; on an empty list it is also the last, otherwise `last` is unchanged |
| DoublyLinkedList.List.InsertEnd | TDDD07_lab_release/robot_agent/src/doublylinkedlist.c:275-288 | the record becomes the last node after all the earlier ones, and the count grows by one |
| DoublyLinkedList.List.Delete | TDDD07_lab_release/robot_agent/src/doublylinkedlist.c:340-372 | node k is gone, the others keep their order, the count drops by one, and `first`/`last` are repaired when k was at an end |
| DoublyLinkedList.List.Remove | TDDD07_lab_release/robot_agent/src/doublylinkedlist.c:298-332 | the caller gets node k's record and its data-type tag, and node k is deleted as by Delete |
| DoublyLinkedList.List.Empty | TDDD07_lab_release/robot_agent/src/doublylinkedlist.c:379-402 | afterwards the list has no nodes, a count of 0 and no first or last node |
| Environment.FirstMatchFrom | TDDD07_lab_release/robot_agent/src/enviroment.c:229-236 | the result is the first index at or after k whose tag has the id, and none means no tag from k on has it |
| Environment.FirstMatch | TDDD07_lab_release/robot_agent/src/enviroment.c:229-236 | the result is the first index whose tag has the id, and none means no tag has it |
| Environment.ToUnsigned | TDDD07_lab_release/robot_agent/src/enviroment.c:192-205 | the `unsigned int` value of an `int`: below 2^32, congruent to it modulo 2^32, and equal to it when it is non-negative |
| Environment.MaxUnsigned | TDDD07_lab_release/robot_agent/src/enviroment.c:192-207 | the running maximum kept in `unsigned int` from 0 is below 2^32, at least every coordinate as unsigned, and is 0 or one of them |
| Environment.Xs | TDDD07_lab_release/robot_agent/src/enviroment.c:198-201 | the x coordinates of the room points, in order |
| Environment.Ys | TDDD07_lab_release/robot_agent/src/enviroment.c:203-206 | the y coordinates of the room points, in order |
| Environment.MaxUnsignedOfNonNegative | TDDD07_lab_release/robot_agent/src/enviroment.c:190-212 | on non-negative coordinates that fit an `int`, the unsigned running maximum is the true maximum (or 0 for no points) |
| Environment.NegativeCoordinateWins | TDDD07_lab_release/robot_agent/src/enviroment.c:198-201 | a room point at x = -1 compares as the largest unsigned value, so the width stored back is -1 |
| Environment.Env.constructor | TDDD07_lab_release/robot_agent/src/enviroment.c:31-43 | the room points and tags as loaded, with the dimensions not yet computed |
| Environment.Env.CalcRoomDimensions | TDDD07_lab_release/robot_agent/src/enviroment.c:190-212 | the stored width and height are the unsigned running maxima of the x and y coordinates converted back to `int` |
| Environment.Env.TagCheck | TDDD07_lab_release/robot_agent/src/enviroment.c:219-247 | the empty tag and only it gives -1; otherwise the first tag with the id decides (its index when enabled, -3 when not), and an unknown id gives -2; a non-negative answer indexes an enabled tag with that id |
| General.Bytes2Uint | TDDD07_lab_release/robot_agent/src/general.c:52-60 | the unsigned word lies in [0, 65535] and its high and low bytes are the two bytes given |
| General.Bytes2Int | TDDD07_lab_release/robot_agent/src/general.c:29-44 | a word with bit 15 clear reads as its unsigned value, one with bit 15 set as that value minus 0xFFFF; the result lies in [-32767, 32767] and is negative only when bit 15 is set |
| General.Int2Bytes | TDDD07_lab_release/robot_agent/src/general.c:69-82 | the two bytes spell the input, raised by 0xFFFF when negative, as an unsigned word |
| General.Int2BytesRoundTrip | TDDD07_lab_release/robot_agent/src/general.c:29-82 | splitting a value of [-32767, 32767] into bytes and reading them back gives the value |
| General.AllOnesIsZero | TDDD07_lab_release/robot_agent/src/general.c:29-44 | 0xFF,0xFF reads as 0, the same value as 0x00,0x00 |
| General.MinInt16DoesNotRoundTrip | TDDD07_lab_release/robot_agent/src/general.c:69-82 | -32768 is split into 0x7F,0xFF and reads back as 32767 |
| General.DrawnSnoc | TDDD07_lab_release/robot_agent/src/general.c:180-201 | the cells written after one more step are those written before plus that step's runs |
| General.DrawnInBox | TDDD07_lab_release/robot_agent/src/general.c:180-201 | steps with 0 <= y <= x <= r write only inside the (2r+1)-square around the centre |
| General.DrawnSymmetric | TDDD07_lab_release/robot_agent/src/general.c:212-234 | the written cells are symmetric about the vertical and the horizontal axis through the centre |
| General.DrawnCentreRow | TDDD07_lab_release/robot_agent/src/general.c:180-201 | a first step (r, 0) writes the whole centre row from cx - r to cx + r |
| General.HorizontalLine | TDDD07_lab_release/robot_agent/src/general.c:244-253 | exactly the `len` cells from (x, y) along the first index are set to 1 and every other cell is unchanged |
| General.FourPoints | TDDD07_lab_release/robot_agent/src/general.c:230-234 | exactly the cells at row distance y and column distance at most x from the centre are set to 1 |
| General.EightPoints | TDDD07_lab_release/robot_agent/src/general.c:212-219 | exactly the cells of the step's runs are set to 1 and every other cell is unchanged |
| General.Circle | TDDD07_lab_release/robot_agent/src/general.c:180-201 | the midpoint loop ends, sets to 1 exactly the cells of its recorded steps, and those cells lie in the (2r+1)-square, are symmetric about both axes and include the whole centre row |
| OpenInterface.SumFull | TDDD07_lab_release/robot_agent/src/openinterface.c:143-157 | with every write returning -1, 0 or 1, the summed results reach the byte count exactly when every write returned 1 |
| OpenInterface.WriteStatus | TDDD07_lab_release/robot_agent/src/openinterface.c:153-159 | the status is s_OK exactly when the summed write results are not below the count, and s_ERROR otherwise |
| OpenInterface.StatusOkIffAllWritten | TDDD07_lab_release/robot_agent/src/openinterface.c:137-160 | a command reports s_OK exactly when every one of its bytes was written |
| OpenInterface.DriveFrame | TDDD07_lab_release/robot_agent/src/openinterface.c:137-152 | the drive command is five bytes starting with opcode 137 |
| OpenInterface.DriveDirectFrame | TDDD07_lab_release/robot_agent/src/openinterface.c:169-183 | the direct-drive command is five bytes starting with opcode 145 |
| OpenInterface.Drive | TDDD07_lab_release/robot_agent/src/openinterface.c:137-160 | openinterface_drive writes the drive frame and reports s_OK exactly when its five writes summed to at least 5 |
| OpenInterface.DriveDirect | TDDD07_lab_release/robot_agent/src/openinterface.c:169-191 | openinterface_drive_direct writes the direct-drive frame and reports s_OK exactly when its five writes summed to at least 5 |
| OpenInterface.Stop | TDDD07_lab_release/robot_agent/src/openinterface.c:92-99 | openinterface_stop writes the single stop opcode 173 and reports s_ERROR exactly when that write did |
| OpenInterface.DriveFrameRoundTrip | TDDD07_lab_release/robot_agent/src/openinterface.c:137-152 | the base reads the velocity and the radius back from the frame's byte pairs, for values in [-32767, 32767] |
| OpenInterface.DriveDirectFrameRoundTrip | TDDD07_lab_release/robot_agent/src/openinterface.c:169-183 | the base reads the right and left wheel velocities back from the frame's byte pairs |
| OpenInterface.SpecialRadii | TDDD07_lab_release/robot_agent/src/openinterface.c:137-152 | the radius words the tasks use go out as 0x80,0x00 (straight), 0xFF,0xFF and 0x00,0x01 (turn in place), and a zero drive is all zero bytes after the opcode |
| OpenInterface.LedBits | TDDD07_lab_release/robot_agent/src/openinterface.c:375-380 | bit 1 is set exactly when `play` is positive, bit 3 exactly when `advance` is, and no other bit is set |
| OpenInterface.LedsFrame | TDDD07_lab_release/robot_agent/src/openinterface.c:375-394 | the LED command is four bytes: opcode 139, the LED bits, the colour and the intensity |
| OpenInterface.Leds | TDDD07_lab_release/robot_agent/src/openinterface.c:375-400 | openinterface_LEDs writes the LED frame and reports s_OK exactly when its four writes summed to at least 4 |
| OpenInterface.LedsDependOnSigns | TDDD07_lab_release/robot_agent/src/openinterface.c:375-380 | the LED frame depends only on whether `play` and `advance` are positive |
| OpenInterface.Apply | TDDD07_lab_release/robot_agent/src/openinterface.c:261-325 | a sensor reply changes the readings for packets 0 to 6 and 100, and is refused for every other id |
| OpenInterface.QuietPackets | TDDD07_lab_release/robot_agent/src/openinterface.c:281-294 | packets 3 and 5 are accepted but change no reading |
| OpenInterface.PacketTwoReadsOdometry | TDDD07_lab_release/robot_agent/src/openinterface.c:276-279 | packet 2 sets the distance and angle from bytes 2 to 5, as written by the base, and changes nothing else |
| OpenInterface.HundredExtendsSix | TDDD07_lab_release/robot_agent/src/openinterface.c:295-318 | packet 100 reads what packet 6 reads plus the light bumper from byte 56, which packet 6 leaves alone |
| OpenInterface.SixCoversZero | TDDD07_lab_release/robot_agent/src/openinterface.c:264-306 | packet 6 overwrites every reading packet 0 sets |
| OpenInterface.ApplyIdempotent | TDDD07_lab_release/robot_agent/src/openinterface.c:261-325 | decoding the same reply twice for a known packet gives what decoding it once gives |
| OpenInterface.ApplyForgets | TDDD07_lab_release/robot_agent/src/openinterface.c:307-318 | after packet 100 the readings depend only on the reply, not on what they were before |
| OpenInterface.Sensors.constructor | TDDD07_lab_release/robot_agent/src/openinterface.c:35-57 | the sensor structure starts with whatever readings the freshly allocated memory holds, given as a parameter |
| OpenInterface.Sensors.Update | TDDD07_lab_release/robot_agent/src/openinterface.c:250-326 | for a known packet the status is s_OK and the readings become the decoded reply; for any other id it is s_ERROR and nothing changes |
| OpenInterface.Sensors.SetOdometry | TDDD07_lab_release/robot_agent/src/tasks/task_control.c:40-44 | the distance and angle take the given values and every other reading is unchanged |
| ParticleFilter.SumScaled | TDDD07_lab_release/robot_agent/src/pf.c:195-199 | dividing every weight by s divides their sum by s |
| ParticleFilter.Weights | TDDD07_lab_release/robot_agent/src/pf.c:168-172 | the particles' weights, in order |
| ParticleFilter.BetaStep | TDDD07_lab_release/robot_agent/src/pf.c:180 | the wheel's step is non-negative and at most twice the largest weight for a draw within RAND_MAX |
| ParticleFilter.GoodBox | TDDD07_lab_release/robot_agent/src/pf.c:297-322 | every particle with weight above 0.00001 lies in the box; the box starts from (99999, 0, 99999, 0), and with no such particle it is exactly that start |
| ParticleFilter.PercentBounds | TDDD07_lab_release/robot_agent/src/pf.c:329-336 | for a non-negative area and a positive field the percentage lies in [0, 100] |
| ParticleFilter.PercentAntitone | TDDD07_lab_release/robot_agent/src/pf.c:329-336 | a larger area never gives a larger percentage |
| ParticleFilter.GoodBoxNotInverted | TDDD07_lab_release/robot_agent/src/pf.c:303-322 | with at least one good particle the box's minimum is not above its maximum on either axis |
| ParticleFilter.AccuracyInRange | TDDD07_lab_release/robot_agent/src/pf.c:294-343 | with a good particle, a positive field and an area that fits an `int`, the accuracy is a percentage in [0, 100] |
| ParticleFilter.BoxPercentBounds | TDDD07_lab_release/robot_agent/src/pf.c:324-336 | a box that is not inverted, with an area that fits an `int`, gives a percentage in [0, 100] |
| ParticleFilter.NoGoodParticles | TDDD07_lab_release/robot_agent/src/pf.c:297-326 | with no good particle the box stays at its start values and the area is (0 - 99999) squared, 1409865409 |
| ParticleFilter.WeightedXConstant | TDDD07_lab_release/robot_agent/src/pf.c:222-226 | when every particle has the same x, the weighted sum of x is that x times the weight sum |
| ParticleFilter.WeighWall | TDDD07_lab_release/robot_agent/src/pf.c:141-144 | one particle weighed against the walls as robot_eval_wall does, with a positive weight |
| ParticleFilter.Wheel | TDDD07_lab_release/robot_agent/src/pf.c:177-192 | the resampling wheel ends and picks one valid particle index per particle |
| ParticleFilter.Walk | TDDD07_lab_release/robot_agent/src/pf.c:181-185 | the inner walk ends on an index whose weight is at least the remaining beta, and beta only decreases |
| ParticleFilter.Picked | TDDD07_lab_release/robot_agent/src/pf.c:187 | the k-th picked particle is the particle at the k-th pick |
| ParticleFilter.Normalised | TDDD07_lab_release/robot_agent/src/pf.c:195-199 | every particle with its weight divided by w and nothing else changed |
| ParticleFilter.SumPositive | TDDD07_lab_release/robot_agent/src/pf.c:190 | a non-empty sum of positive weights is positive |
| ParticleFilter.NormalisedSumsToOne | TDDD07_lab_release/robot_agent/src/pf.c:189-199 | dividing positive weights by their sum leaves them positive and makes them sum to 1 |
| ParticleFilter.Filter.constructor | TDDD07_lab_release/robot_agent/src/pf.c:38-77 | `num` particles with x and y drawn inside the room, a whole-radian heading in 0..6, the given noises and radius, and weight 1/num |
| ParticleFilter.Filter.Drive | TDDD07_lab_release/robot_agent/src/pf.c:99-108 | every particle is moved by the motion model and nothing else about it changes |
| ParticleFilter.Filter.WeightTag | TDDD07_lab_release/robot_agent/src/pf.c:117-127 | every particle gets the tag number and is weighed as robot_eval_tag does |
| ParticleFilter.Filter.WeightWall | TDDD07_lab_release/robot_agent/src/pf.c:136-145 | every particle is weighed against the walls as robot_eval_wall does |
| ParticleFilter.Filter.MaxWeight | TDDD07_lab_release/robot_agent/src/pf.c:167-172 | the result is one particle's weight and no weight exceeds it |
| ParticleFilter.Filter.CopyPicked | TDDD07_lab_release/robot_agent/src/pf.c:177-192 | a fresh array of the picked particles in pick order, and the sum of their weights, which is positive |
| ParticleFilter.Filter.Resample | TDDD07_lab_release/robot_agent/src/pf.c:152-207 | the particles become the picked ones with their weights divided by the picked weights' sum, so the weights sum to 1 |
| ParticleFilter.Filter.Random | TDDD07_lab_release/robot_agent/src/pf.c:261-286 | ScatteredBy: `rand() % 100` particles are touched; each touched one moves to within [-299, 300] of the tag with weight 0.00001, and the others are unchanged |
| ParticleFilter.Filter.Accuracy | TDDD07_lab_release/robot_agent/src/pf.c:294-343 | the percentage is computed from the good particles' box and the room area as stored in an `int` |
| ParticleFilter.Filter.Estimate | TDDD07_lab_release/robot_agent/src/pf.c:215-251 | the pose is the weighted mean x and y truncated to integers, with the heading given, and nothing else changes |
| PheromoneMap.CeilDiv | TDDD07_lab_release/robot_agent/src/pheromone.c:62-63 | the ceiling of a / b: the least r with a <= r * b |
| PheromoneMap.Odd | TDDD07_lab_release/robot_agent/src/pheromone.c:77-88 | a stencil size is odd and at least 1: the count itself when odd, one more when even |
| PheromoneMap.ColumnMajor | TDDD07_lab_release/robot_agent/src/pheromone.c:395-419 | the running sector position i * rows + j gives back column i and row j |
| PheromoneMap.CellInGrid | TDDD07_lab_release/robot_agent/src/pheromone.c:395-397 | a cell of the grid has a position below x_cells * y_cells in the column-major walk |
| PheromoneMap.CurrentSector | TDDD07_lab_release/robot_agent/src/pheromone.c:416-421 | a cell before the end of the walk is written into a sector that exists |
| PheromoneMap.LastSector | TDDD07_lab_release/robot_agent/src/pheromone.c:419-436 | at the end of the walk the sector counter stands at sector_count, or at its last sector when that one is not full |
| PheromoneMap.MakeStencil | TDDD07_lab_release/robot_agent/src/pheromone.c:146-164 | a fresh size-by-size stencil holding 1 exactly on the cells the circle fill draws around its centre and 0 elsewhere, so a disk |
| PheromoneMap.CellByte | TDDD07_lab_release/robot_agent/src/pheromone.c:400-413 | a cell's age becomes a byte in [1, 255] that is never a comma: clamped to 255 above, to 1 below, 44 moved to 45, any other age kept |
| PheromoneMap.Max | TDDD07_lab_release/robot_agent/src/pheromone.c:347-350 | the larger of two timestamps |
| PheromoneMap.Pheromones.constructor | TDDD07_lab_release/robot_agent/src/pheromone.c:40-102 | the grid has the ceiling counts of cells, all 0; the stencil sizes are the odd ceilings of the diameters; sector_size, sector_count and sector_size_last are derived from the grid and the buffer size |
| PheromoneMap.Pheromones.Put | TDDD07_lab_release/robot_agent/src/pheromone.c:174-211 | the cells under the stencil placed at the robot's cell (and inside the grid) get the stamp, every other cell is unchanged, and a position left of or below the radius changes nothing |
| PheromoneMap.Pheromones.PutCoversCentre | TDDD07_lab_release/robot_agent/src/pheromone.c:181-205 | a pheromone put away from the lower edges covers the grid cell at the stencil's centre |
| PheromoneMap.Pheromones.Span | TDDD07_lab_release/robot_agent/src/pheromone.c:390 | a sector's size, y_cells * sector_size, is positive and fits the sector buffer |
| PheromoneMap.Pheromones.SectorIndex | TDDD07_lab_release/robot_agent/src/pheromone.c:344-353 | the byte of a sector that holds column `col` of the sector and row j is col * y_cells + j, inside the sector |
| PheromoneMap.Pheromones.VisitedColumns | TDDD07_lab_release/robot_agent/src/pheromone.c:342-360 | the columns the update loop as written visits: consecutive from num * sector_size, below x_cells, and at most sector_size of them |
| PheromoneMap.Pheromones.NegativeSectorVisitsOutside | TDDD07_lab_release/robot_agent/src/pheromone.c:342-349 | for sector number -1 the loop as written starts at a negative column, outside the grid |
| PheromoneMap.Pheromones.MapUpdate | TDDD07_lab_release/robot_agent/src/pheromone.c:336-364 | each cell of the sector's columns becomes the later of its own stamp and the sector's timestamp minus its byte, every other cell is unchanged, no cell gets older, and a negative sector number changes nothing |
| PheromoneMap.Pheromones.NegativeSectorMissesGrid | TDDD07_lab_release/robot_agent/src/pheromone.c:342 | no grid column belongs to a sector with a negative number |
| PheromoneMap.Pheromones.MergeSector | TDDD07_lab_release/robot_agent/src/pheromone.c:342-361 | for a sector number of 0 or more, the cells of its columns take the later stamp and the rest of the grid is unchanged |
| PheromoneMap.Pheromones.FilledStep | TDDD07_lab_release/robot_agent/src/pheromone.c:415-419 | writing the next cell's byte extends the filled prefix of a sector by one |
| PheromoneMap.Pheromones.ExtractColumn | TDDD07_lab_release/robot_agent/src/pheromone.c:397-437 | one column of the walk fills the next y_cells bytes of the sectors in order, moving to the next sector each time one is full |
| PheromoneMap.Pheromones.Extract | TDDD07_lab_release/robot_agent/src/pheromone.c:371-441 | sector_count sectors numbered in order, each with size y_cells * sector_size and the current stamp, whose bytes are the cell bytes of its columns and 0xFF past the map |
| PheromoneMap.Pheromones.MergeExtracted | TDDD07_lab_release/robot_agent/src/pheromone.c:347-412 | a sector byte is the cell byte of the cell it came from, so merging a freshly extracted sector back gives each cell its stamp whenever its age was in 1..255 and not 44 |
| Protocol.JoinFront | TDDD07_lab_release/robot_agent/src/protocol.c:62 | a line of comma-joined fields is its first field, a comma, and the join of the rest |
| Protocol.TokJoin | TDDD07_lab_release/robot_agent/src/protocol.c:176-179 | strtok on a comma-joined line returns its first field and leaves the join of the others |
| Protocol.FieldAt | TDDD07_lab_release/robot_agent/src/protocol.c:176-210 | an integer written with `%d` as the k-th field is read back by strtok and strtol as the same integer, leaving the fields after it |
| Protocol.Timestamp | TDDD07_lab_release/robot_agent/src/protocol.c:59 | the frame's timestamp is the millisecond clock truncated and reduced with C's `%` by 60000: within (-60000, 60000), non-negative for a non-negative clock, and congruent to the clock |
| Protocol.HeaderFields | TDDD07_lab_release/robot_agent/src/protocol.c:62 | the header is eight fields |
| Protocol.Encode | TDDD07_lab_release/robot_agent/src/protocol.c:43-158 | the status is s_OK exactly for an ack or go-ahead frame and for a data frame of type 0 to 4; the frame is the joined header, followed for data frames by the data type and the record's fields |
| Protocol.AppendRecord | TDDD07_lab_release/robot_agent/src/protocol.c:84-139 | the record's fields are appended to the frame, each after a comma |
| Protocol.JoinSnoc | TDDD07_lab_release/robot_agent/src/protocol.c:82 | appending one field to a joined line adds a comma and the field |
| Protocol.SignedChar | TDDD07_lab_release/robot_agent/src/protocol.c:229 | the data type stored in the packet's `char` field: in [-128, 127], congruent to the value read, and equal to it when it fits |
| Protocol.Zeros | TDDD07_lab_release/robot_agent/src/protocol.c:294 | n zero bytes |
| Protocol.VictimId | TDDD07_lab_release/robot_agent/src/protocol.c:267-268 | the victim id is the token cut at 10 characters, whole when it is at most 10 long |
| Protocol.Parse | TDDD07_lab_release/robot_agent/src/protocol.c:169-348 | an accepted frame comes from an admitted sender (not this robot, and of this team unless the team is 0) and carries a coherent message |
| Protocol.ParseKind | TDDD07_lab_release/robot_agent/src/protocol.c:193-194 | the packet type step keeps the ids read so far and yields a coherent message |
| Protocol.ParseStamps | TDDD07_lab_release/robot_agent/src/protocol.c:196-224 | the stamp steps keep the ids and the type, and accept acks and go-aheads without data |
| Protocol.ParseData | TDDD07_lab_release/robot_agent/src/protocol.c:226-339 | a data frame is accepted with the header unchanged, a data type of 0 to 4 and a well-formed record of that type |
| Protocol.ReadRecord | TDDD07_lab_release/robot_agent/src/protocol.c:232-336 | a record read for data type dt has that tag and is well formed |
| Protocol.ReadPose | TDDD07_lab_release/robot_agent/src/protocol.c:235-251 | a pose record is read as a pose |
| Protocol.ReadVictim | TDDD07_lab_release/robot_agent/src/protocol.c:253-270 | a victim record is read as a victim with an id of at most 10 characters |
| Protocol.ReadSector | TDDD07_lab_release/robot_agent/src/protocol.c:272-298 | a sector record is read as a sector with a full 200-byte buffer and a size within it |
| Protocol.SectorBytes | TDDD07_lab_release/robot_agent/src/protocol.c:292-294 | the sector keeps the size read, which fits the buffer; a size outside it is refused |
| Protocol.ReadCommand | TDDD07_lab_release/robot_agent/src/protocol.c:300-310 | a command record is read as a command |
| Protocol.ReadStream | TDDD07_lab_release/robot_agent/src/protocol.c:313-330 | a stream record is read as a stream with a full buffer and a size within it |
| Protocol.StreamBytes | TDDD07_lab_release/robot_agent/src/protocol.c:325-328 | the stream keeps the size read, which fits the buffer; a size outside it is refused |
| Protocol.Decode | TDDD07_lab_release/robot_agent/src/protocol.c:169-348 | the status is s_OK exactly when the frame is accepted, and then the packet is the message parsed |
| Protocol.DecodeStamps | TDDD07_lab_release/robot_agent/src/protocol.c:196-224 | the stamp and type steps succeed exactly when the parse accepts, with the same message |
| Protocol.DecodeData | TDDD07_lab_release/robot_agent/src/protocol.c:226-339 | the data step succeeds exactly when the parse accepts, with the same message |
| Protocol.DecodeRecord | TDDD07_lab_release/robot_agent/src/protocol.c:232-336 | the record read agrees with ReadRecord |
| Protocol.DecodePose | TDDD07_lab_release/robot_agent/src/protocol.c:235-251 | the pose read agrees with ReadPose |
| Protocol.DecodeVictim | TDDD07_lab_release/robot_agent/src/protocol.c:253-270 | the victim read agrees with ReadVictim |
| Protocol.DecodeSector | TDDD07_lab_release/robot_agent/src/protocol.c:272-298 | the sector read agrees with ReadSector |
| Protocol.DecodeStream | TDDD07_lab_release/robot_agent/src/protocol.c:313-330 | the stream read agrees with ReadStream |
| Protocol.Header | TDDD07_lab_release/robot_agent/src/protocol.c:62 | a message's header is eight fields with its packet type fourth |
| Protocol.ParseHeader | TDDD07_lab_release/robot_agent/src/protocol.c:176-224 | a frame whose header the encoder wrote is dropped when this robot sent it, dropped when another team sent it and the team is not 0, accepted as an ack or go-ahead, read on for data frames, and dropped for any other type |
| Protocol.ParseIds | TDDD07_lab_release/robot_agent/src/protocol.c:176-190 | the two filters on an encoded header's sender and team, and otherwise the message so far |
| Protocol.DropsOwnFrames | TDDD07_lab_release/robot_agent/src/protocol.c:182-183 | a robot drops every frame it sent itself, whatever follows the header |
| Protocol.DropsOtherTeams | TDDD07_lab_release/robot_agent/src/protocol.c:189-190 | a frame from another team is dropped unless the receiving robot's team is 0 |
| Protocol.HeaderRoundTrip | TDDD07_lab_release/robot_agent/src/protocol.c:62-76 | an encoded ack or go-ahead from an admitted sender decodes to the message it was encoded from |
| Protocol.ParseDataFrame | TDDD07_lab_release/robot_agent/src/protocol.c:79-83 | an encoded data frame decodes by its data type, to the record read or to the reason it was refused |
| Protocol.PoseRoundTrip | TDDD07_lab_release/robot_agent/src/protocol.c:88-96 | a pose decodes to its x and y and its heading truncated to whole degrees and turned back into radians |
| Protocol.ReadPoseFields | TDDD07_lab_release/robot_agent/src/protocol.c:241-249 | the pose reader gives back the x, y and whole-degree heading the encoder wrote |
| Protocol.VictimRoundTrip | TDDD07_lab_release/robot_agent/src/protocol.c:98-106 | a victim whose id has 1 to 10 characters and no comma decodes to the victim encoded |
| Protocol.ReadVictimFields | TDDD07_lab_release/robot_agent/src/protocol.c:259-268 | the victim reader gives back the x, y and id the encoder wrote |
| Protocol.CommandRoundTrip | TDDD07_lab_release/robot_agent/src/protocol.c:122-128 | a command decodes to the command encoded |
| Protocol.SectorRoundTrip | TDDD07_lab_release/robot_agent/src/protocol.c:108-120 | a sector of 1 to 200 bytes, none 0 or a comma, decodes to the sector encoded with its first `size` bytes kept and the rest 0 |
| Protocol.RawField | TDDD07_lab_release/robot_agent/src/protocol.c:292-294 | raw bytes with no 0 and no comma form one field, which memcpy copies back whole |
| Records.TagOf | TDDD07_lab_release/robot_agent/src/def.h:67-72 | each kind of record has its own data-type tag, 0 to 4: robot, victim, pheromone, command, stream |
| Fifo.Queue.constructor | TDDD07_lab_release/robot_agent/src/queue.c:29-40 | a new queue is empty with a count of 0 and a null tail |
| Fifo.Queue.Enqueue | TDDD07_lab_release/robot_agent/src/queue.c:62-123 | the record joins the back, the count grows by one, and the tail is the new node |
| Fifo.Queue.Dequeue | TDDD07_lab_release/robot_agent/src/queue.c:132-186 | on a non-empty queue the caller gets the front record and its tag and the rest stays in order, with the tail untouched; on an empty queue the caller's variables are unchanged and the tail is cleared |
| Fifo.Queue.Empty | TDDD07_lab_release/robot_agent/src/queue.c:193-216 | afterwards the queue has no nodes, a count of 0 and a null tail |
| Fifo.DanglingTailScenario | TDDD07_lab_release/robot_agent/src/queue.c:71-83 | after the only node is dequeued the tail still points at it, yet a later enqueue and dequeue hand back the new record, because an empty head makes the new node head and tail |
| Rfid.Scan | TDDD07_lab_release/robot_agent/src/rfid.c:151-185 | a completed read yields at most ten characters with no NUL in them, and the recogniser never writes past the buffer |
| Rfid.ScanCollect | TDDD07_lab_release/robot_agent/src/rfid.c:173-179 | data bytes are collected one after another while fewer than eleven are held, whatever follows them |
| Rfid.ScanFrame | TDDD07_lab_release/robot_agent/src/rfid.c:155-170 | a newline, ten data characters and a carriage return complete the read with exactly those ten characters as the id, whatever was collected before |
| Rfid.TwelveDataBytesStop | TDDD07_lab_release/robot_agent/src/rfid.c:176-183 | twelve data bytes in a row end the read without an id, because the count is already at eleven |
| Rfid.ShortFrameSkipped | TDDD07_lab_release/robot_agent/src/rfid.c:160-171 | a carriage return after a count other than ten completes nothing and the read goes on with the next byte |
| Rfid.ScanAsWritten | TDDD07_lab_release/robot_agent/src/rfid.c:146-185 | the loop as written, whose id can be eleven characters long, one more than a tag has: every byte is stored at the current position, a newline resets only the count, and a carriage return with count ten copies the first eleven buffer bytes |
| Rfid.Store | TDDD07_lab_release/robot_agent/src/rfid.c:173-179 | storing a run of bytes leaves the buffer its size and puts the run at the given position |
| Rfid.DataRun | TDDD07_lab_release/robot_agent/src/rfid.c:173-179 | as written, a run of data bytes is stored at consecutive positions and advances count and position by its length |
| Rfid.NewlineStep | TDDD07_lab_release/robot_agent/src/rfid.c:156-158 | as written, a newline is stored and sets the count to 0 without moving the position |
| Rfid.ReturnStep | TDDD07_lab_release/robot_agent/src/rfid.c:160-170 | as written, a carriage return with the count at ten completes with the buffer's first eleven bytes, cut at the first NUL |
| Rfid.StrayByteKept | TDDD07_lab_release/robot_agent/src/rfid.c:156-158 | a stray byte before the newline ends up in the id as written but is dropped by the corrected recogniser |
| Rfid.StrayByteAsWritten | TDDD07_lab_release/robot_agent/src/rfid.c:156-158 | as written, a stray data byte before the newline is kept as the first character of an eleven-character id |
| Rfid.StrayByteDropped | TDDD07_lab_release/robot_agent/src/rfid.c:156-158 | with the position reset on a newline, the same input yields exactly the ten tag characters |
| Rfid.UnsetCount | TDDD07_lab_release/robot_agent/src/rfid.c:128 | as written, the outcome of a frame without a leading newline depends on the uninitialised count: from 5 it stops with no id, from 0 it completes; the corrected recogniser completes |
| Rfid.NewlineKeepsPosition | TDDD07_lab_release/robot_agent/src/rfid.c:156-158 | the concrete input "A", newline, "0123456789", carriage return reads as the eleven-character id "A0123456789" as written and as "0123456789" when corrected |
| Rfid.CountStartsUnset | TDDD07_lab_release/robot_agent/src/rfid.c:128 | the concrete input "0123456789", carriage return stops with no id when the uninitialised count happens to hold 5, and completes when the count starts at 0 |
| Rfid.Reader.constructor | TDDD07_lab_release/robot_agent/src/rfid.c:35-46 | a new reader's current and last ids are whatever the freshly allocated memory holds, read as C strings from parameters |
| Rfid.Reader.Read | TDDD07_lab_release/robot_agent/src/rfid.c:124-196 | returns 0; with no byte ready the id becomes the empty tag and the last id is kept; a completed frame sets both ids to the tag read; any other read leaves both ids as they were |
| Robots.Fmod | TDDD07_lab_release/robot_agent/src/robot.c:121 | fmod of a non-negative value by a positive modulus lies in [0, modulus) |
| Robots.FmodBounds | TDDD07_lab_release/robot_agent/src/robot.c:230 | the remainder x - m * floor(x / m) lies in [0, m) |
| Robots.SetPose | TDDD07_lab_release/robot_agent/src/robot.c:84-89 | the pose becomes the given x, y and heading and every other field is kept |
| Robots.SetNoise | TDDD07_lab_release/robot_agent/src/robot.c:100-106 | the four noise fields become the given values and every other field is kept |
| Robots.SenseTag | TDDD07_lab_release/robot_agent/src/robot.c:150-180 | the empty tag gives tag number -1 and distance -1; a known tag gives the index of its first entry in the tag table and the distance to it plus the noise; only the tag number changes |
| Robots.WallDistance | TDDD07_lab_release/robot_agent/src/robot.c:188-206 | the running minimum of the segment distances never exceeds the start value 99999 |
| Robots.WallDistanceIsMin | TDDD07_lab_release/robot_agent/src/robot.c:194-203 | the wall distance is at most the distance to every segment, and is one of them unless it is still 99999 |
| Robots.SenseWall | TDDD07_lab_release/robot_agent/src/robot.c:188-206 | the loop returns the smallest distance to any wall segment, the last point joined to the first, and 99999 for an empty room |
| Robots.Replace | TDDD07_lab_release/robot_agent/src/robot.c:226-230 | a particle outside the room is put back inside it with a heading in [0, 2 pi) and weight 0.00001, nothing else changed |
| Robots.EvalTag | TDDD07_lab_release/robot_agent/src/robot.c:214-242 | a particle outside the room is re-placed with weight 0.00001; inside, its weight is the Gaussian density, or 0.00001 where that is 0; the returned value is the stored weight |
| Robots.EvalWall | TDDD07_lab_release/robot_agent/src/robot.c:250-281 | a particle outside the room is re-placed; inside, its weight is 1 exactly when the wall distance is within 10 mm of its radius, and 0.1 otherwise; the returned value is the stored weight |
| TimeLib.Diff | TDDD07_lab_release/robot_agent/src/timelib.c:109-117 | the difference in milliseconds is exactly the difference of the two instants in microseconds divided by 1000 |
| TimeLib.TimerGet | TDDD07_lab_release/robot_agent/src/timelib.c:43-57 | the elapsed milliseconds are the difference from the timer to the current time |
| TimeLib.TimerReset | TDDD07_lab_release/robot_agent/src/timelib.c:64-81 | returns the elapsed milliseconds and sets the timer to now, so that an immediate read gives 0 |
| TimeLib.AddMs | TDDD07_lab_release/robot_agent/src/timelib.c:90-100 | while ms * 1000 fits an unsigned int the instant advances by exactly ms milliseconds, and a normalised timer stays normalised when less than a second is added |
| TimeLib.UnixMs | TDDD07_lab_release/robot_agent/src/timelib.c:123-137 | the timestamp in milliseconds is the instant in microseconds divided by 1000 |
| TimeLib.DiffSelf | TDDD07_lab_release/robot_agent/src/timelib.c:109-117 | an instant differs from itself by 0 ms |
| TimeLib.DiffAntisymmetric | TDDD07_lab_release/robot_agent/src/timelib.c:109-117 | swapping the two instants negates the difference |
| TimeLib.DiffChain | TDDD07_lab_release/robot_agent/src/timelib.c:109-117 | differences add up along a chain of three instants |
| TimeLib.AddMsSingleCarry | TDDD07_lab_release/robot_agent/src/timelib.c:94-99 | only one carry into the seconds is made, so adding 2000 ms to 0 s 999000 us leaves 1999000 in the microseconds |
| CyclicExecutive.IdOf | TDDD07_lab_release/robot_agent/src/task.h:115-122 | every task has an id from 1 to 7 |
| CyclicExecutive.DispatchExact | TDDD07_lab_release/robot_agent/src/scheduler.c:91-128 | the switch's id-to-task mapping is one to one on the ids 1 to 7: every task is reached by its own id and no other, and every id outside 1 to 7, the no-operation id among them, names no task |
| CyclicExecutive.ElapsedExact | TDDD07_lab_release/robot_agent/src/scheduler.c:72 | the elapsed microseconds are the exact difference of the instants while it fits an int |
| CyclicExecutive.SleepEndsAtNextCycle | TDDD07_lab_release/robot_agent/src/scheduler.c:67-83 | while the numbers fit, the current time plus the sleep is the start of the next minor cycle, and the scheduler sleeps exactly when the cycle has not overrun |
| CyclicExecutive.CyclesDoNotDrift | TDDD07_lab_release/robot_agent/src/scheduler.c:75 | after n waits the cycle timer stands exactly n minor cycles after its start, overrun or not |
| CyclicExecutive.Scheduler.constructor | TDDD07_lab_release/robot_agent/src/scheduler.c:31-37 | a new scheduler has the given minor cycle, timers at zero and no sleeps |
| CyclicExecutive.Scheduler.Start | TDDD07_lab_release/robot_agent/src/scheduler.c:55-60 | both timers are set to now |
| CyclicExecutive.Scheduler.WaitForTimer | TDDD07_lab_release/robot_agent/src/scheduler.c:67-83 | the sleep is the time left in the minor cycle in 32-bit arithmetic, the cycle timer advances by the minor cycle whatever the time, and a sleep happens only when the time left is positive |
| CyclicExecutive.Scheduler.ExecTask | TDDD07_lab_release/robot_agent/src/scheduler.c:91-128 | TaskRan: for each id 1 to 7, the task with that id takes effect as its own predicate states (Tasks.Agent.MissionRan, NavigateRan, ControlRan, RefineRan, ReportRan, CommunicateRan, AvoidRan), and the parts of the agent that task does not write stay unchanged; every other id leaves the agent untouched; the process ends exactly when the id is the avoid task's, that task is enabled and the light bumper calls for a halt; the agent's invariant holds afterwards |
| TaskCommunicate.FlushHeader | TDDD07_lab_release/robot_agent/src/tasks/task_communicate.c:85-95 | every flushed frame is a data message from this robot and team |
| TaskCommunicate.Flushed | TDDD07_lab_release/robot_agent/src/tasks/task_communicate.c:48-102 | one frame per record in list order, the k-th numbered k + 1 out of the list's count, carrying that record's tag and fields under the current sequence id |
| TaskCommunicate.Flush | TDDD07_lab_release/robot_agent/src/tasks/task_communicate.c:48-102 | the send list is emptied and the frames broadcast are exactly the encoding of its records in order |
| TaskCommunicate.RouteOf | TDDD07_lab_release/robot_agent/src/tasks/task_communicate.c:117-184 | a received message goes to the mission queue only as a victim or a command, and to the navigate queue only as a pheromone sector |
| TaskCommunicate.Delivery | TDDD07_lab_release/robot_agent/src/tasks/task_communicate.c:117-184 | an accepted message delivers at most one record, victims and commands to the mission queue and sectors to the navigate queue |
| TaskCommunicate.Delivered | TDDD07_lab_release/robot_agent/src/tasks/task_communicate.c:114-189 | a frame the decoder drops delivers nothing, and an accepted one at most one record to the right queue |
| TaskCommunicate.Routed | TDDD07_lab_release/robot_agent/src/tasks/task_communicate.c:110-190 | the frames received deliver at most one record each, each to the queue its kind belongs to |
| TaskCommunicate.Deliver | TDDD07_lab_release/robot_agent/src/tasks/task_communicate.c:117-184 | the message's record is appended to the back of the queue it belongs to and the other queue is unchanged |
| TaskCommunicate.ReceiveOne | TDDD07_lab_release/robot_agent/src/tasks/task_communicate.c:112-189 | one frame is decoded and its record, if any, appended to its queue |
| TaskCommunicate.Receive | TDDD07_lab_release/robot_agent/src/tasks/task_communicate.c:110-190 | every frame received is handled in arrival order: the queues end up as before followed by what the frames route to each |
| TaskCommunicate.ReceiveNext | TDDD07_lab_release/robot_agent/src/tasks/task_communicate.c:110-190 | handling frame i extends the queues from what the first i frames route to what the first i + 1 route |
| TaskCommunicate.RoutedNone | TDDD07_lab_release/robot_agent/src/tasks/task_communicate.c:114 | frames that are all dropped change neither queue |
| TaskCommunicate.OwnFlushIgnored | TDDD07_lab_release/robot_agent/src/tasks/task_communicate.c:85-98 | a robot's own broadcast frames, when it hears them, deliver nothing |
| TaskCommunicate.OtherTeamFlushIgnored | TDDD07_lab_release/robot_agent/src/tasks/task_communicate.c:85-98 | frames broadcast by a robot of another team deliver nothing to a robot of a non-zero team |
| TaskCommunicate.FlushedCommandArrives | TDDD07_lab_release/robot_agent/src/tasks/task_communicate.c:167-171 | a command flushed by a team mate reaches the receiver's mission queue unchanged |
| TaskCommunicate.FlushedVictimArrives | TDDD07_lab_release/robot_agent/src/tasks/task_communicate.c:154-158 | a victim flushed by a team mate reaches the receiver's mission queue unchanged, given an id of one to ten characters without a comma |
| TaskCommunicate.FlushedSectorArrives | TDDD07_lab_release/robot_agent/src/tasks/task_communicate.c:160-165 | a pheromone sector flushed by a team mate reaches the navigate queue with its data cut to its size and padded with zeros |
| TaskCommunicate.NegativeSectorArrives | TDDD07_lab_release/robot_agent/src/tasks/task_communicate.c:160-163 | a sector numbered -1 is decoded and queued for the navigate task with its number kept |
| TaskCommunicate.GoAheadArrives | TDDD07_lab_release/robot_agent/src/tasks/task_communicate.c:125-131 | a go-ahead message puts a go-ahead command in the mission queue and nothing in the navigate queue |
| TaskCommunicate.ArrivesAs | TDDD07_lab_release/robot_agent/src/tasks/task_communicate.c:114-184 | a frame the decoder accepts as a message delivers exactly that message's record |
| TaskCommunicate.RoutedSingle | TDDD07_lab_release/robot_agent/src/tasks/task_communicate.c:110-190 | one received frame routes as its decoding delivers |
| TaskCommunicate.RoutedStep | TDDD07_lab_release/robot_agent/src/tasks/task_communicate.c:110-190 | routing one more frame appends its delivery to what the earlier frames routed |
| TaskAvoid.AvoidanceOf | TDDD07_lab_release/robot_agent/src/tasks/task_avoid.c:38-63 | a turn is always one of the two turn-in-place radii |
| TaskAvoid.AvoidFrames | TDDD07_lab_release/robot_agent/src/tasks/task_avoid.c:38-63 | no reaction sends nothing, a turn sends one drive frame at the robot's speed with the turn radius, a halt sends the stop command |
| TaskAvoid.AvoidanceClasses | TDDD07_lab_release/robot_agent/src/tasks/task_avoid.c:38-63 | readings 8 to 32 turn left, 1 to 4 turn right, above 64 halt, and 0, 5 to 7 and 33 to 64 do nothing, each in both directions |
| TaskAvoid.SpinsTurnInPlace | TDDD07_lab_release/robot_agent/src/tasks/task_avoid.c:44-55 | a turn's frame is the drive opcode, the speed, and radius bytes 0x00,0x01 for a right-side hit or 0xFF,0xFF for a left-side one |
| TaskRefine.Weighed | TDDD07_lab_release/robot_agent/src/pf.c:117-127 | every particle is weighed with the read tag's number and the count is kept |
| TaskRefine.RefineStep | TDDD07_lab_release/robot_agent/src/tasks/task_refine.c:36-44 | the particles are weighed against the tag, resampled with normalised weights, and the pose is estimated from the resampled set; then exactly `rand() % 100` draws each choose a particle, and every chosen particle is moved to within 300 mm of the tag with weight 0.00001 while every other particle stays as resampled |
| TaskControl.HalfSpeed | TDDD07_lab_release/robot_agent/src/tasks/task_control.c:52 | half the speed truncated toward zero, as C's integer division does, for positive and negative speeds |
| TaskControl.ControlReadingsOdometry | TDDD07_lab_release/robot_agent/src/tasks/task_control.c:31-45 | when a request is due the particles are driven by the distance and angle the packet-2 reply carries, otherwise by 0 and 0, and no other reading changes |
| TaskControl.DriveParticles | TDDD07_lab_release/robot_agent/src/tasks/task_control.c:31-45 | the sensors end as the reply or the zeroing leaves them, and every particle is moved once by those odometry values, certain when a request was due and uncertain otherwise |
| TaskControl.Localise | TDDD07_lab_release/robot_agent/src/tasks/task_control.c:31-50 | after driving the particles the pose is their weighted mean with the estimated heading, and the accuracy is the good box's percentage of the room |
| TaskControl.MoveCommandWords | TDDD07_lab_release/robot_agent/src/tasks/task_control.c:65-97 | the base receives a drive command exactly for the six moves; the five directions send the speed with radius 200, 100, 0x8000, 0xFFFF - 100 or 0xFFFF - 200, left below 0x8000 and right above it; no move sends all-zero words |
| TaskControl.ControlStep | TDDD07_lab_release/robot_agent/src/tasks/task_control.c:20-103 | the request timer restarts exactly when a request was due, the estimated pose is appended to the send list, and a pending move is sent at half speed below accuracy 30 and at full speed otherwise, with the event then cleared |
| Text.Dec | TDDD07_lab_release/robot_agent/src/protocol.c:62 | the %d rendering of an integer is a non-empty run of digits with at most a leading minus sign |
| Text.NatDigitsValue | TDDD07_lab_release/robot_agent/src/protocol.c:62 | the digits written for a natural number read back as that number |
| Text.StrTolDec | TDDD07_lab_release/robot_agent/src/protocol.c:176-177 | strtol in base 10 reads back exactly the integer %d wrote, negative numbers included |
| Text.CStr | TDDD07_lab_release/robot_agent/src/protocol.c:163 | the C string in a buffer is its longest NUL-free prefix, ended by the first NUL if there is one |
| Text.CStrNulFree | TDDD07_lab_release/robot_agent/src/protocol.c:163 | a buffer without a NUL is its own C string |
| Text.SkipDelims | TDDD07_lab_release/robot_agent/src/protocol.c:176 | strtok skips a suffix-preserving run of leading delimiters |
| Text.TokenLen | TDDD07_lab_release/robot_agent/src/protocol.c:176 | a token runs up to the first delimiter or NUL and contains neither |
| Text.StrTok | TDDD07_lab_release/robot_agent/src/protocol.c:176-179 | a token found is non-empty and free of delimiters and NUL, and what remains is strictly shorter than the input |
| Text.TokenBytes | TDDD07_lab_release/robot_agent/src/protocol.c:193-194 | copying a token's bytes succeeds exactly when strtok finds a token, and yields as many bytes as asked |
| Text.TokenLenField | TDDD07_lab_release/robot_agent/src/protocol.c:176 | a field of non-delimiter characters followed by a delimiter, a NUL or nothing is one token of exactly its length |
| Text.StrTokCons | TDDD07_lab_release/robot_agent/src/protocol.c:176-179 | strtok on a field, a comma and the rest returns the field and the rest |
| Text.StrTokLast | TDDD07_lab_release/robot_agent/src/protocol.c:176-179 | strtok on a last field returns it and leaves nothing |
| Text.TokenBytesLast | TDDD07_lab_release/robot_agent/src/protocol.c:292-294 | copying the bytes of a last field returns exactly its bytes |
| Text.DecIsField | TDDD07_lab_release/robot_agent/src/protocol.c:62 | a %d rendering contains no delimiter that is neither a digit nor a minus sign, so it is one field |
| Tasks.QuantisedTimeTruncates | TDDD07_lab_release/robot_agent/src/pheromone.c:205 | the pheromone clock is the number of whole lifetimes in the seconds, rounded toward zero as C division does |
| Tasks.AddVictim | TDDD07_lab_release/robot_agent/src/tasks/task_mission.c:69-84 | the victim's id is known afterwards, the stored victims are kept as a prefix, at most one is added, the known ids are the old ones plus this one, and distinct ids stay distinct |
| Tasks.FindVictim | TDDD07_lab_release/robot_agent/src/tasks/task_mission.c:70-77 | the search returns the index of the first victim with the id, or the count exactly when none has it |
| Tasks.StoreVictim | TDDD07_lab_release/robot_agent/src/tasks/task_mission.c:69-84 | the search followed by the store at the count adds the victim exactly when its id is new |
| Tasks.HandleAllVictims | TDDD07_lab_release/robot_agent/src/tasks/task_mission.c:41-141 | draining the queue keeps the stored victims, never stores an id twice, stores every victim it was handed, and stores no other id |
| Tasks.HandleAllFlags | TDDD07_lab_release/robot_agent/src/tasks/task_mission.c:88-125 | the flags end as they were, all enabled, or mission and communicate only; mission and communicate once enabled stay enabled; without commands the flags do not change |
| Tasks.HandleRecord | TDDD07_lab_release/robot_agent/src/tasks/task_mission.c:60-137 | one dequeued record is handled as its tag says, stores at most one victim, and keeps the ids distinct |
| Tasks.StreamCountRate | TDDD07_lab_release/robot_agent/src/tasks/task_mission.c:170-171 | at 20 streams a second one stream is due per whole 50 ms elapsed, and none when the clock went back |
| Tasks.StreamsNumbered | TDDD07_lab_release/robot_agent/src/tasks/task_mission.c:179-195 | the generated streams carry consecutive counters from the stream counter, are full, and can be sent |
| Tasks.MissionVictimsBound | TDDD07_lab_release/robot_agent/src/tasks/task_mission.c:41-166 | the victims task_mission holds afterwards extend the stored ones, by at most one per victim record in the queue plus one for the report task's victim; commands take no place in the array |
| Tasks.DrainMission | TDDD07_lab_release/robot_agent/src/tasks/task_mission.c:41-141 | the queue ends empty and every record it held is handled oldest first, with victim ids kept distinct |
| Tasks.SendStreams | TDDD07_lab_release/robot_agent/src/tasks/task_mission.c:179-195 | the stream records are appended to the send list in order and the counter moves on by their number |
| Tasks.MergeAllNewest | TDDD07_lab_release/robot_agent/src/tasks/task_navigate.c:33-52 | merging never makes a cell older, and the merged cell is at least as late as every received sector says |
| Tasks.MergeCellMonotone | TDDD07_lab_release/robot_agent/src/pheromone.c:336-364 | merging a sector keeps a cell at least as late, and a later cell stays later |
| Tasks.DrainNavigate | TDDD07_lab_release/robot_agent/src/tasks/task_navigate.c:33-52 | the queue ends empty and every cell holds its old time merged with every queued sector, oldest first |
| Tasks.NavigateStep | TDDD07_lab_release/robot_agent/src/tasks/task_navigate.c:23-84 | Navigated: the queue ends empty with every record merged into the map, and a deposit at the pose only when pf_accuracy exceeds 30; every sector of the map is appended to the send list with the quantised time; the move handed on is the chosen one with go-ahead and none without, with the event set |
| Tasks.UpdateMap | TDDD07_lab_release/robot_agent/src/tasks/task_navigate.c:33-58 | the covered cells hold the current time when accuracy exceeds 30, and every other cell holds its merged time |
| Tasks.SectorRecords | TDDD07_lab_release/robot_agent/src/tasks/task_navigate.c:65-68 | one sector record per extracted sector, in sector order |
| Tasks.SendSectors | TDDD07_lab_release/robot_agent/src/tasks/task_navigate.c:65-68 | the extracted sectors are appended to the send list in sector order |
| Tasks.SendMap | TDDD07_lab_release/robot_agent/src/tasks/task_navigate.c:62-70 | the send list gains exactly the map's sectors as extracted, in sector order |
| Tasks.Agent.constructor | TDDD07_lab_release/robot_agent/src/task.c:69-163 | fresh empty send list and queues; every task enabled when enable > 0, else mission and communicate only; no victims, stream counter 0, timers at now, sequence id 0, TDMA slot robot id - 1, go-ahead 1 |
| Tasks.Agent.Mission | TDDD07_lab_release/robot_agent/src/tasks/task_mission.c:20-198 | MissionRan: a disabled task changes nothing; an enabled one drains the queue as HandleAll says, stores the reported victim if new and clears that event, restarts the stream timer and sends one stream per whole 50 ms elapsed; the stored victims stay distinct and within the 100-entry array, which is all the task needs of its caller |
| Tasks.Agent.Navigate | TDDD07_lab_release/robot_agent/src/tasks/task_navigate.c:20-86 | NavigateRan: a disabled task changes nothing; an enabled one empties the queue into the map, deposits when accurate, sends every sector, and passes the chosen move, or none without go-ahead, with the event set |
| Tasks.Agent.Control | TDDD07_lab_release/robot_agent/src/tasks/task_control.c:20-103 | ControlRan: a disabled task changes nothing; an enabled one does one control step as ControlStep states |
| Tasks.Agent.Refine | TDDD07_lab_release/robot_agent/src/tasks/task_refine.c:20-61 | RefineRan: a disabled task changes nothing; an enabled one reads the reader, refines the particles and pose for a known tag as RefineStep states (exactly `rand() % 100` particles chosen for scattering), passes an unknown tag to the report task, and does nothing more for the empty or a disabled tag |
| Tasks.Agent.Report | TDDD07_lab_release/robot_agent/src/tasks/task_report.c:20-67 | ReportRan: with no event nothing changes; otherwise the event is cleared, and a new id becomes a victim at the estimated pose that is passed to the mission task and appended to the send list |
| Tasks.Agent.Communicate | TDDD07_lab_release/robot_agent/src/tasks/task_communicate.c:20-195 | CommunicateRan: a disabled task changes nothing; an enabled one empties the send list into the broadcast frames, routes the received frames to the two queues in arrival order, and increments the message sequence id |
| Tasks.Agent.Avoid | TDDD07_lab_release/robot_agent/src/tasks/task_avoid.c:20-95 | AvoidRan: a disabled task changes nothing; an enabled one reads packet 100 and writes the avoidance command for the light bumper, with exit set exactly when it halts |

## Left out

- Serial, UDP and file I/O are not modelled. This covers `serialport.c`, `udp.c` and `file.c`, and the port handling in `openinterface.c`: `open`, `close`, `start`, `full`, `sensor_get`, `distance_get` and `angle_get`. The bytes these would read are inputs, and the bytes they would write are recorded.
- The close-and-reopen of the serial port in `task_init`, and the debug output of every task, are I/O and are not modelled.
- Configuration loading (`config.c`) and the room and tag file loaders of `enviroment.c` are not modelled. Their values are constructor parameters.
- `main.c` and `debug.c` are not modelled.
- The `*_destroy` functions and all `malloc`/`free` bookkeeping are left out. Records are values, and the containers own them.
- Floating-point and random numerics are parameters of the model:
  - `general_gaussrand` and `general_gaussian`;
  - the distance functions of general.c;
  - the trigonometric motion model `robot_drive`;
  - the heading average of `pf_estimate`;
  - `pheromone_eval`'s choice of move.
- `rand()` values are sequences of draws, and `time(NULL)` and `gettimeofday` are `Timeval` or stamp parameters.
- Float weights and times are exact reals. Rounding to `float` or `double` is not modelled.
- Each task reads the clock once; the source may read it at slightly different instants within one task.
- `scheduler_run` is an empty stub in the source and has no counterpart. `scheduler_init` leaves the timers unset, and the model starts them at zero.
- The TDMA slot is computed at start-up and never used. It is stored and not otherwise modelled.
- `messageSequenceId` is an unbounded integer. The overflow of the C `int` after 2^31 runs of the communicate task is not modelled.
- The stream wire format has no round-trip lemma. The encoder writes the counter and then raw bytes with no size field, while the decoder reads counter, size and data, so a stream does not decode as it was encoded.
- The pose round trip is stated only with the heading truncated to whole degrees (Protocol.PoseRoundTrip), because the wire carries degrees as an integer.
- In `task_communicate`, the flush loop's `default: continue` branch, which would loop forever on an unknown tag, is unreachable. The send-list invariant admits only the five record kinds.
- The drain loops of `task_mission` and `task_navigate` would not terminate on a record of another kind. The queue invariant (Tasks.Agent.QueuesReady) guarantees that only victims and commands reach the mission queue and only sectors reach the navigate queue.
- Tasks.Agent.Mission: the 100-entry victim array is never bounds-checked in the source. The model requires that the victims the task will hold (Tasks.MissionVictims) fit the array, which is exactly when the source writes no entry past its end.
- The avoid task's `exit(1)` is modelled as the `exit` result.
- Sector bytes past `sector_max_size` are modelled as 0. The source leaves them as `malloc` returned them.
- A decoded sector or stream copies `size` raw bytes and pads the rest of the buffer with 0. The source leaves the rest as freshly allocated memory.
- A missing token in `protocol_decode`, where the source would dereference NULL, is modelled as an error result.
- Conversions of `double` to `int` that overflow are modelled as wrap-around modulo 2^32. In C they are undefined.
- Protocol.SectorBytes: a sector size outside the 200-byte buffer is refused as an error. `protocol_decode` copies `size` bytes into the buffer regardless and reports success, which overruns the buffer (or, for a negative size, copies a huge count).
- Protocol.StreamBytes: a stream size outside the 200-byte buffer is refused as an error, where `protocol_decode` copies `size` bytes regardless and reports success.
- Protocol.DecodeSector: refuses an out-of-buffer size as Protocol.SectorBytes does. The source's overrunning copy is not modelled.
- Protocol.DecodeStream: refuses an out-of-buffer size as Protocol.StreamBytes does. The source's overrunning copy is not modelled.
- Protocol.Parse: decoded integer fields keep `strtol`'s value unbounded. `protocol_decode` stores the `long` into `int` fields, which wraps it modulo 2^32, and `strtol` clamps at the `long` limits. So a frame whose sender id is the robot's own id plus 2^32 is dropped as its own by the source but accepted by the model. Protocol.Decode follows Protocol.Parse.
- Robots.SenseTag: requires the id to be empty or present in the tag table. For any other id, `robot_sense_tag` leaves the tag number at -1 and reads `tags[-1]`, outside the array, so that case has no defined result to model.
- Rfid.Reader.Read implements the recogniser with the two counting defects listed under Findings corrected. Rfid.ScanAsWritten models the loop as written.

## Findings

| source | as written | input that shows it | evidently intended | confidence | as-written member | corrected member |
|---|---|---|---|---|---|---|
| TDDD07_lab_release/robot_agent/src/rfid.c:156-158 | a newline resets the byte count but not the position the next byte is stored at | the bytes "A", newline, "0123456789", carriage return read as the id "A0123456789" | a newline starts a new frame at the start of the buffer, giving "0123456789" | not executed | Rfid.ScanAsWritten, Rfid.StrayByteAsWritten, Rfid.NewlineKeepsPosition | Rfid.Scan, Rfid.StrayByteDropped, Rfid.ScanFrame |
| TDDD07_lab_release/robot_agent/src/rfid.c:128 | the byte count `tbytes` is used before it is set when the first byte is not a newline | "0123456789", carriage return with the count holding 5 stops with no id | the count starts at 0 | not executed | Rfid.ScanAsWritten, Rfid.UnsetCount, Rfid.CountStartsUnset | Rfid.Scan, Rfid.Reader.Read |
| TDDD07_lab_release/robot_agent/src/pheromone.c:342 | the merge loop starts at column `num * sector_size` with no check that `num` is non-negative, and the decoder accepts sector number -1 | a received sector numbered -1 makes the loop start at column -sector_size, outside the grid | a sector with a negative number changes no cell | not executed | PheromoneMap.Pheromones.VisitedColumns, PheromoneMap.Pheromones.NegativeSectorVisitsOutside, TaskCommunicate.NegativeSectorArrives | PheromoneMap.Pheromones.MapUpdate, PheromoneMap.Pheromones.NegativeSectorMissesGrid |
