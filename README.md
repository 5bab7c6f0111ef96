# FRESCO core pieces in Dafny

This project models five self-contained pieces of the FRESCO secure
multi-party computation framework and proves what they promise.

- **TinyTables AND-gate preprocessing** (`TinyTablesPrepro`,
  `TinyTablesPreproAnd.dfy`). This is the main piece.
  - In round 0, player 1 draws an output-mask share and two OT masks. It
    stores its two oblivious-transfer (OT) input pairs and its 2x2 TinyTable.
  - Every other player stores its two selection bits (sigmas) and its
    output-mask share.
  - After one batched OT, player 2 walks its stored gates in iteration order
    and builds one table per gate from two consecutive OT outputs.
  - The main theorem, `PreprocessingCorrect`, assumes an ideal OT. Under it,
    the (c, d) entries of the two players' tables XOR to
    (rU xor c) and (rV xor d) xor rO for the combined masks.
- **OT extension sender** (`OTExtension`, `OTExtensionSender.dfy`).
  - Inputs longer than `MAX_OTS` = 10000 are split recursively into batches.
  - Each batch's two message columns are encoded into byte arrays, with 0 for
    false and 1 for true, in a loop.
  - Each batch becomes one launch of the external sender process, recorded as
    an event.
- **OT** (`OT.dfy`): the OT values and the ideal OT functionality.
- **BGW local inversion** (`BgwInteger`, `BgwLocalInv.dfy`).
  - `BigInteger.modInverse` is computed by the extended Euclidean algorithm.
  - The protocol writes the inverse into its output wire.
- **SPDZ configuration** (`SpdzConfig`, `SpdzConfiguration.dfy`).
  - `fromCmdLine` reads the `-D` properties with defaults and validates the
    bit length.
  - It uses Java's `Integer.parseInt` and `Boolean.parseBoolean`, modelled in
    `Decimal.dfy` and `SpdzConfiguration.dfy`.
- **Mininet node configuration** (`Mininet`, `StartMininet.dfy`).
  - `generate_node_config` builds the `-i<id> -p<k>:<ip>:9001 ...` argument
    string in a loop.

Shared modules:

- `Wrappers.dfy`: `Option` and `Result`.
- `Framework.dfy`: evaluation status and error kinds.
- `Decimal.dfy`: decimal rendering and parsing of integers.

Parameters and state stand in for the framework's hidden parts:

- Random bits are explicit parameters.
- The player id and the BGW modulus are explicit parameters.
- The per-player TinyTables storage is an object with four maps keyed by gate id.
- The iteration order of a storage map is a parameter `ids` that lists its
  keys without duplicates.
- The OT receiver is a function parameter from sigmas to outputs.

## Model

| member | source | states |
|---|---|---|
| TinyTablesPrepro.CalculateOTInputs | src/main/java/dk/alexandra/fresco/suite/tinytables/prepro/protocols/TinyTablesPreproANDProtocol.java:186-191 | two OT pairs; the message selected by bit s is x0 xor (s and left share), resp. x1 xor (s and right share) |
| TinyTablesPrepro.Player1Table | src/main/java/dk/alexandra/fresco/suite/tinytables/prepro/protocols/TinyTablesPreproANDProtocol.java:140-145 | entries 1, 2, 3 are entry 0 flipped by the left share, the right share, and both |
| TinyTablesPrepro.CalculateTinyTable | src/main/java/dk/alexandra/fresco/suite/tinytables/prepro/protocols/TinyTablesPreproANDProtocol.java:214-225 | entries 1, 2, 3 are entry 0 flipped by rU, rV, and both and additionally by true |
| TinyTablesPrepro.Player2Sigmas | src/main/java/dk/alexandra/fresco/suite/tinytables/prepro/protocols/TinyTablesPreproANDProtocol.java:158-159 | player 2 selects with its right share, then its left share, so its OT outputs are player 1's mask bits xor the two cross products of the shares |
| TinyTablesPrepro.TableSharesCorrect | src/main/java/dk/alexandra/fresco/suite/tinytables/prepro/protocols/TinyTablesPreproANDProtocol.java:54-59 | for one gate under ideal OT, the (c, d) entries of both tables XOR to (rU xor c) and (rV xor d) xor rO, with player 2 reading rV = sigmas[0] and rU = sigmas[1] |
| TinyTablesPrepro.TinyTablesPreproANDProtocol.constructor | src/main/java/dk/alexandra/fresco/suite/tinytables/prepro/protocols/TinyTablesPreproANDProtocol.java:82-89 | keeps the gate id and the three wires |
| TinyTablesPrepro.TinyTablesPreproANDProtocol.InputValues | src/main/java/dk/alexandra/fresco/suite/tinytables/prepro/protocols/TinyTablesPreproANDProtocol.java:91-94 | the inputs are exactly [inLeft, inRight] |
| TinyTablesPrepro.TinyTablesPreproANDProtocol.OutputValues | src/main/java/dk/alexandra/fresco/suite/tinytables/prepro/protocols/TinyTablesPreproANDProtocol.java:96-99 | the outputs are exactly [out] |
| TinyTablesPrepro.TinyTablesPreproANDProtocol.Evaluate | src/main/java/dk/alexandra/fresco/suite/tinytables/prepro/protocols/TinyTablesPreproANDProtocol.java:101-173 | a round other than 0 fails with the MPC exception and changes nothing; round 0 is done and sets the output share to rO; player 1 stores its OT inputs and table under the gate id and no sigmas or mask; any other id stores sigmas [right, left] and its mask share and no table |
| TinyTablesPrepro.Gather | src/main/java/dk/alexandra/fresco/suite/tinytables/prepro/protocols/TinyTablesPreproANDProtocol.java:265 | the values of all gates in iteration order; two per gate gives 2 * #gates values |
| TinyTablesPrepro.GatherAt | src/main/java/dk/alexandra/fresco/suite/tinytables/prepro/protocols/TinyTablesPreproANDProtocol.java:265 | gathered values 2k and 2k + 1 are the two values of the k-th gate |
| TinyTablesPrepro.Player2TablesKeys | src/main/java/dk/alexandra/fresco/suite/tinytables/prepro/protocols/TinyTablesPreproANDProtocol.java:237-247 | exactly the gates that have sigmas get a table |
| TinyTablesPrepro.Player2Tables | src/main/java/dk/alexandra/fresco/suite/tinytables/prepro/protocols/TinyTablesPreproANDProtocol.java:234-255 | every gate that has sigmas gets a table |
| TinyTablesPrepro.Player2TablesAt | src/main/java/dk/alexandra/fresco/suite/tinytables/prepro/protocols/TinyTablesPreproANDProtocol.java:239-246 | the k-th gate's table is built from OT outputs 2k and 2k + 1, rV = sigmas[0], rU = sigmas[1] and its mask share |
| TinyTablesPrepro.Player2CalculateTinyTables | src/main/java/dk/alexandra/fresco/suite/tinytables/prepro/protocols/TinyTablesPreproANDProtocol.java:234-255 | the loop with its progress counter stores exactly the tables of the specification, other maps unchanged |
| TinyTablesPrepro.FinishPreprocessing | src/main/java/dk/alexandra/fresco/suite/tinytables/prepro/protocols/TinyTablesPreproANDProtocol.java:257-286 | player 1 only sends its gathered OT inputs, batch by batch, with its storage unchanged; player 2 receives with its gathered sigmas and stores its tables; any other id changes nothing |
| TinyTablesPrepro.PreprocessingCorrect | src/main/java/dk/alexandra/fresco/suite/tinytables/prepro/protocols/TinyTablesPreproANDProtocol.java:54-73 | end to end: after the batched ideal OT and player 2's batch step, every gate's two tables XOR to the masked AND table |
| OT.IdealTransfer | src/main/java/dk/alexandra/fresco/suite/tinytables/prepro/protocols/TinyTablesPreproANDProtocol.java:175-178 | the receiver gets, pair by pair, x1 when its sigma is true and x0 otherwise |
| OTExtension.DecodeEncodeBoolean | src/main/java/dk/alexandra/fresco/suite/tinytables/util/ot/extension/OTExtensionReceiverApplication.java:13-15 | 0x00 reads as false and 0x01 as true, and only those bytes |
| OTExtension.DecodeEncodeBooleans | src/main/java/dk/alexandra/fresco/suite/tinytables/util/ot/extension/OTExtensionReceiverApplication.java:13-15 | an encoded column decodes back to the booleans it came from |
| OTExtension.ConcatBatches | src/main/java/dk/alexandra/fresco/suite/tinytables/util/ot/extension/OTExtensionSender.java:49-51 | the batches concatenated in order are the original inputs |
| OTExtension.BatchSizes | src/main/java/dk/alexandra/fresco/suite/tinytables/util/ot/extension/OTExtensionSender.java:49-51 | at least one batch; every batch has at most MAX_OTS inputs; all but the last exactly MAX_OTS; none empty unless the input is |
| OTExtension.Batches | src/main/java/dk/alexandra/fresco/suite/tinytables/util/ot/extension/OTExtensionSender.java:49-51 | at least one batch, the first being the first MAX_OTS inputs or the whole input when shorter |
| OTExtension.SmallInputIsOneBatch | src/main/java/dk/alexandra/fresco/suite/tinytables/util/ot/extension/OTExtensionSender.java:49-52 | at most MAX_OTS inputs, even none, go out as one batch |
| OTExtension.BatchCount | src/main/java/dk/alexandra/fresco/suite/tinytables/util/ot/extension/OTExtensionSender.java:49-51 | the number of batches is the length divided by MAX_OTS rounded up, and 1 for no input |
| OTExtension.EncodeInputs | src/main/java/dk/alexandra/fresco/suite/tinytables/util/ot/extension/OTExtensionSender.java:54-60 | both arrays have the batch length; input0[i] encodes inputs[i].x0 and input1[i] encodes inputs[i].x1 |
| OTExtension.OTExtensionSender.constructor | src/main/java/dk/alexandra/fresco/suite/tinytables/util/ot/extension/OTExtensionSender.java:27-29 | keeps the address and has launched nothing |
| OTExtension.OTExtensionSender.Send | src/main/java/dk/alexandra/fresco/suite/tinytables/util/ot/extension/OTExtensionSender.java:31-34 | launches one sender process per batch, in order, and never reaches the unsupported path |
| OTExtension.OTExtensionSender.TransferDefault | src/main/java/dk/alexandra/fresco/suite/tinytables/util/ot/extension/OTExtensionSender.java:36-39 | the separate-process transfer: always succeeds and launches one process per batch |
| OTExtension.OTExtensionSender.Transfer | src/main/java/dk/alexandra/fresco/suite/tinytables/util/ot/extension/OTExtensionSender.java:41-92 | succeeds exactly when a separate process is asked for, then launches the batches in order; otherwise fails with the unsupported-operation exception and launches nothing |
| BgwInteger.ExtGcd | src/main/java/dk/alexandra/fresco/suite/bgw/integer/BgwLocalInvProtocol.java:61 | a common divisor of a and b that is a combination s * a + t * b, positive unless both are 0 |
| BgwInteger.ModInverse | src/main/java/dk/alexandra/fresco/suite/bgw/integer/BgwLocalInvProtocol.java:61 | a modulus that is not positive fails; a success is the inverse in [0, m); a failure with m > 0 means no inverse exists |
| BgwInteger.InverseUnique | src/main/java/dk/alexandra/fresco/suite/bgw/integer/BgwLocalInvProtocol.java:61 | inverses in [0, m) are unique |
| BgwInteger.ModInverseComplete | src/main/java/dk/alexandra/fresco/suite/bgw/integer/BgwLocalInvProtocol.java:61 | every x with an inverse gets exactly that inverse |
| BgwInteger.BgwLocalInvProtocol.constructor | src/main/java/dk/alexandra/fresco/suite/bgw/integer/BgwLocalInvProtocol.java:43-46 | keeps x and res |
| BgwInteger.BgwLocalInvProtocol.InputValues | src/main/java/dk/alexandra/fresco/suite/bgw/integer/BgwLocalInvProtocol.java:48-51 | the inputs are exactly [x] |
| BgwInteger.BgwLocalInvProtocol.OutputValues | src/main/java/dk/alexandra/fresco/suite/bgw/integer/BgwLocalInvProtocol.java:53-56 | the outputs are exactly [res] |
| BgwInteger.BgwLocalInvProtocol.Evaluate | src/main/java/dk/alexandra/fresco/suite/bgw/integer/BgwLocalInvProtocol.java:58-64 | done in one call for any round: res receives the inverse of x; a non-invertible x fails before res is written; x itself is not changed unless it is res |
| Decimal.ParseInt | src/main/java/dk/alexandra/fresco/suite/spdz/configuration/SpdzConfiguration.java:68 | a parsed value fits in 32 bits; a failure reports the input text |
| Decimal.ParseIntOfIntToString | src/main/java/dk/alexandra/fresco/suite/spdz/configuration/SpdzConfiguration.java:68 | every 32-bit integer parses back from its decimal text |
| Decimal.ParseIntRejectsNonDigit | src/main/java/dk/alexandra/fresco/suite/spdz/configuration/SpdzConfiguration.java:68 | a non-digit after the optional sign makes parsing fail |
| SpdzConfig.ParseBoolean | src/main/java/dk/alexandra/fresco/suite/spdz/configuration/SpdzConfiguration.java:73 | true exactly when the text lower-cases to "true" |
| SpdzConfig.FromCmdLine | src/main/java/dk/alexandra/fresco/suite/spdz/configuration/SpdzConfiguration.java:64-92 | an unparsable bit length fails with the number format error; a bit length below 2 fails with the parse exception; every parsable bit length of at least 2 succeeds; a result has bit length >= 2 equal to the parsed value, the triple path given or "/triples", and dummy data exactly when given as "true" in any case |
| SpdzConfig.FromCmdLineDefaults | src/main/java/dk/alexandra/fresco/suite/spdz/configuration/SpdzConfiguration.java:68-73 | no properties give bit length 64, "/triples" and no dummy data |
| SpdzConfig.FromCmdLineOfPropertiesFor | src/main/java/dk/alexandra/fresco/suite/spdz/configuration/SpdzConfiguration.java:64-92 | every valid configuration is read back from its own properties |
| SpdzConfig.FromCmdLineRejectsSmall | src/main/java/dk/alexandra/fresco/suite/spdz/configuration/SpdzConfiguration.java:69-71 | any 32-bit bit length below 2 is rejected whatever else is set |
| Decimal.NatToString | start_mininet.py:39 | decimal digits only, with no leading zero |
| Decimal.IntToString | start_mininet.py:36 | no space, and a leading minus exactly for negative numbers |
| Mininet.GenerateNodeConfig | start_mininet.py:34-41 | the appending loop builds the id option and one segment per host in host order |
| Mininet.NodeConfig | start_mininet.py:34-41 | the argument string opens with the id option "-i" |
| Mininet.Tokens | start_mininet.py:35-39 | the words are "-i<id>", then "-p<k+1>:<ip k>:9001" for every host k |
| Mininet.NodeConfigIsJoin | start_mininet.py:34-41 | the argument string is those words, each followed by one space |
| Mininet.SplitJoin | start_mininet.py:35-39 | words without spaces, each followed by a space, split back into the same words |
| Mininet.NodeConfigWords | start_mininet.py:34-41 | with space-free addresses the string splits into the id option and exactly one party option per host; party numbers run from 1 to n in host order; the port is always 9001; with no hosts it is the id option alone |
| Mininet.NodeConfigEndsWithSpace | start_mininet.py:35-39 | the string ends with a single space |

## Left out

- Randomness: `getSecureRandom().nextBoolean()` is replaced by the explicit bits `rO`, `x0` and `x1`.
- Singletons: `getInstance()` is replaced by an explicit player id, an explicit storage object and an explicit BGW modulus.
- `TinyTablesStorage`, `TinyTable`, `Util.getAll` and the OT types: their Java implementation is outside this model; the model assumes the plainest reading: four maps with store-by-id, a four-entry table with entry 2c + d at (c, d), and concatenation of the stored arrays in iteration order.
- Map iteration order: Java's `keySet()` order is the parameter `ids`. The model assumes that player 1 and player 2 enumerate their gates in the same order.
- `FinishPreprocessing`: the OT receiver is a function parameter, the ideal OT is assumed, and the network and OT factory are left out.
- OT cryptography: SCAPI, the separate sender and receiver applications and Base64 are process I/O. A launched process is recorded as a `Launch` event carrying the host, the port and the two encoded columns.
- `OTExtensionSender.Transfer`: the swallowed `IOException` and `InterruptedException` are not modelled, because process start and wait are not modelled.
- `BgwOInt`: its Java implementation is outside this model; the model assumes the plainest reading: a value that is an `Option`, unset until written.
- `BgwInteger.BgwLocalInvProtocol.Evaluate` requires `x` to hold a value. Reading an unset value in the source would be a null dereference.
- `Decimal.ParseInt`: accepts only ASCII digits. Java's `Integer.parseInt` also accepts other Unicode decimal digits.
- `SpdzConfig.ParseBoolean`: compares ignoring case for ASCII letters only. `equalsIgnoreCase` also folds non-ASCII letters, but none of those can match "true".
- `fromCmdLine`: the command-line parsing (`getOptionProperties("D")`) is replaced by the property map. The unused `SCEConfiguration` argument is left out.
- The SCE round loop, the protocol producers and the network are not part of this model. Nothing modelled here depends on them.
- `run` in start_mininet.py, the demo programs, the RPC server, the CSV appender and the lookup factory are left out, and so are the JUnit arithmetic tests. All of them are I/O, or they only wire up library classes that this model does not cover.
- `generate_node_config`: a host is represented by the string its `IP()` returns.
