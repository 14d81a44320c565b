# Transaction generator launcher, modelled in Dafny

The performance-test harness drives load with external transaction generator
processes. Each process can sustain a limited number of transactions per second (TPS).
`launch_transaction_generators.py` does two things:

1. `TpsTrxGensConfig` turns a target TPS and a per-generator limit into a number of
   generators and a per-generator rate.
   - The number of generators is `ceil(targetTps / tpsLimitPerGenerator)`.
   - Every generator gets `floor(targetTps / numGenerators)`.
   - The remainder goes out one unit each. A running value is bumped once, when
     the 1-based index reaches `incrementPoint`, so the LAST generators get the
     extra unit.
2. `TransactionGeneratorsLauncher.launch` builds one command line per rate, in
   list order, and starts one process for each. It then waits for every process
   in that same order and returns their exit statuses.

The model has three modules:

- `Formatting` (`formatting.dfy`) covers three things:
  - the optional (None-able) Python fields;
  - the decimal text that `f'{targetTps}'` produces;
  - how that text is read back into a number.
- `TpsPartition` (`tps_partition.dfy`) holds the partition arithmetic. It has the
  specification function `Partition` and the lemmas about it. It also holds the
  class `TpsTrxGensConfig`. That class's constructor runs the source's loop: a
  running `curTps` that is bumped once at `incrementPoint` and appended to the
  field `targetTpsPerGenList`. The loop is proved to produce `Partition`.
  `PartitionUnique` shows that `Partition` is the only non-decreasing list of
  that length whose entries differ by at most one and add up to the target.
- `GeneratorsLauncher` (`generators_launcher.dfy`) holds the class
  `TransactionGeneratorsLauncher`.
  - `Command` builds the argument vector for one rate.
  - `FlagValue` is a reference reading of a command line's flag/value pairs
    (the first occurrence of a flag gives its value). It is the partner of
    `Command` and states what each command line carries: every option comes
    back with the intended value, and the three action options come back
    together or not at all. The generator's own option parser is not modelled.
  - `Launch` is the launch loop. Process start-up and `wait()` are given to it
    as two functions `starts` and `exitStatus` of the launch position and the
    command line, so identical command lines may start or end differently.

Two consequences of the code are worth stating:

- The extra units go to the last generators, so a target of 10000 with a limit
  of 4000 gives `[3333, 3333, 3334]` (`TpsPartition.PartitionExamples`).
- A target of 0 makes `numGenerators` 0, and line 25 then raises
  `ZeroDivisionError`. The model therefore requires a positive target.

## Model

| member | source | states |
|---|---|---|
| `Formatting.DecimalString` | tests/performance_tests/launch_transaction_generators.py:81 | the text of a rate is a non-empty string of decimal digits, with a leading `0` only for the number 0 |
| `Formatting.DecimalRoundTrip` | tests/performance_tests/launch_transaction_generators.py:81 | reading the text of a rate back as a decimal number gives the rate again |
| `Formatting.DecimalStringInjective` | tests/performance_tests/launch_transaction_generators.py:81 | different rates give different texts |
| `TpsPartition.NumGenerators` | tests/performance_tests/launch_transaction_generators.py:24 | `numGenerators` is the exact ceiling of targetTps / limit: `n * limit >= targetTps` and `(n - 1) * limit < targetTps` |
| `TpsPartition.NumGeneratorsBounds` | tests/performance_tests/launch_transaction_generators.py:24 | a positive target needs between 1 and targetTps generators |
| `TpsPartition.Partition` | tests/performance_tests/launch_transaction_generators.py:24-35 | the list has one entry per generator: its length is `NumGenerators` |
| `TpsPartition.PartitionSum` | tests/performance_tests/launch_transaction_generators.py:25-35 | the entries add up to exactly targetTps |
| `TpsPartition.PartitionEntries` | tests/performance_tests/launch_transaction_generators.py:25-35 | every entry is `initialTpsPerGenerator` or one more. Entry `num` (1-based) gets the extra unit exactly when the target is not cleanly divisible and `num >= incrementPoint`. So a cleanly divisible target gives every generator the base rate |
| `TpsPartition.PartitionBalanced` | tests/performance_tests/launch_transaction_generators.py:28-35 | the list is non-decreasing and no two entries differ by more than one |
| `TpsPartition.PartitionWithinLimit` | tests/performance_tests/launch_transaction_generators.py:24-35 | every entry is between 1 and `tpsLimitPerGenerator`, the per-generator maximum of the command-line help at line 127 |
| `TpsPartition.PartitionUnique` | tests/performance_tests/launch_transaction_generators.py:28-35 | any non-decreasing list of `NumGenerators` entries that differ by at most one and add up to the target is `Partition`, so the trailing placement of the extra units is forced |
| `TpsPartition.PartitionExamples` | tests/performance_tests/launch_transaction_generators.py:24-35 | (10000, 4000) gives [3333, 3333, 3334]; (12000, 4000) gives [4000, 4000, 4000]; (1, 4000) gives [1]; (4001, 4000) gives [2000, 2001] |
| `TpsPartition.TpsTrxGensConfig.constructor` | tests/performance_tests/launch_transaction_generators.py:20-35 | the fields are the ceiling, floor, remainder, divisibility flag and increment point of the inputs. The loop with its running `curTps` leaves `targetTpsPerGenList == Partition(targetTps, tpsLimitPerGenerator)` |
| `GeneratorsLauncher.TransactionGeneratorsLauncher.constructor` | tests/performance_tests/launch_transaction_generators.py:39-51 | the launcher keeps its eleven arguments as its fields |
| `GeneratorsLauncher.TransactionGeneratorsLauncher.Command` | tests/performance_tests/launch_transaction_generators.py:73-112 | a command line is the generator executable followed by the 8 common flag/value pairs (17 words). When all three action fields are set, the 3 action pairs follow (23 words). The source writes the two variants as two literal lists; the model writes the shared part once |
| `GeneratorsLauncher.TransactionGeneratorsLauncher.ActionOptions` | tests/performance_tests/launch_transaction_generators.py:56 | the action pairs are all three when abiFile, actionName and actionData are all set, and none otherwise |
| `GeneratorsLauncher.TransactionGeneratorsLauncher.CommonOptionsRead` | tests/performance_tests/launch_transaction_generators.py:102-112 | the command line carries `--chain-id`, `--last-irreversible-block-id`, `--contract-owner-account`, `--accounts`, `--priv-keys`, `--trx-gen-duration`, `--target-tps` and `--log-dir` with the launcher's values, as the reference reading `FlagValue` gives them back. `--target-tps` carries the decimal text of that generator's rate |
| `GeneratorsLauncher.TransactionGeneratorsLauncher.ActionOptionsRead` | tests/performance_tests/launch_transaction_generators.py:56-86 | `--action-name`, `--action-data` and `--abi-file` are read back with the launcher's values when abiFile, actionName and actionData are all set. When any of them is None, none of the three is present |
| `GeneratorsLauncher.TransactionGeneratorsLauncher.CommandTargetTps` | tests/performance_tests/launch_transaction_generators.py:81 | the generator started for a rate is asked for exactly that rate |
| `GeneratorsLauncher.TransactionGeneratorsLauncher.CommandsTotal` | tests/performance_tests/launch_transaction_generators.py:55-112 | the rates read back from the command lines for a list of targets add up to the sum of the targets |
| `GeneratorsLauncher.TransactionGeneratorsLauncher.LaunchedRatesAddUp` | tests/performance_tests/launch_transaction_generators.py:55 | over one run, the rates on the command lines built for the run add up to the configuration's targetTps |
| `GeneratorsLauncher.TransactionGeneratorsLauncher.Launch` | tests/performance_tests/launch_transaction_generators.py:53-115 | the processes started are a prefix of the command lines, one per partition entry, in list order. If every command starts, all are launched, and the exit statuses follow launch order one for one: status `i` is what waiting for the `i`-th launched process returns. Otherwise the launch stops at the first command that cannot start, with no statuses |

## Left out

- Process creation and waiting (`subprocess.Popen`, `.wait()`, lines 73, 102 and 114) are not modelled. `Launch` takes two functions of the launch position and the command line instead: whether the `i`-th process starts, and the status `wait()` returns for it. Because they depend on the position, identical command lines (the common case of an evenly divided target) may start or end differently. Real finishing order, concurrency and timing are not modelled. Statuses are collected in launch order whatever the finishing order.
- A start-up failure is modelled as the `LaunchFailed` outcome. In the source it is the exception `Popen` raises, and it propagates out of `launch`. The processes already started keep running, and `Launch` returns them as `launched`.
- The `Utils.Debug` / `Print` logging branches (lines 57-71 and 89-100) only print, so they are not modelled.
- Argument parsing and the program entry point (`parseArgs`, `main`, lines 117-149) are not modelled. That includes `exit(exit_codes)` with a list.
- Float arithmetic inside `math.ceil` / `math.floor` (lines 24-25) is not modelled. The model uses exact integer ceiling and floor. For very large integers the float quotient can differ.
- TpsPartition.TpsTrxGensConfig.constructor requires both inputs to be positive. In the source, a limit of 0 divides by zero at line 24, and a target of 0 divides by zero at line 25. Some negative inputs, which Python accepts (for example a target of -5000 yields an empty list), are not modelled (others, such as a target of -1 with a limit of 4000, give `numGenerators` 0 and divide by zero at line 25): rates are `nat`.
- GeneratorsLauncher.TransactionGeneratorsLauncher.constructor takes the identity fields as strings. The source annotates `chainId`, `lastIrreversibleBlockId` and `trxGenDurationSec` as `int` and `abiFile` as `Path`, but its entry point passes strings. An f-string renders a string unchanged.
- unittests/payer_choice_test.cpp and libraries/chain/webassembly/runtimes/sys-vm-oc/LLVMJIT.h are not part of this model. They hold no logic of the launcher.
