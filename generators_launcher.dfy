/** How `TransactionGeneratorsLauncher` starts one transaction generator
    process per entry of the partition and gathers their exit statuses.

    A command line is a pure function of the launcher's fields and one
    target rate. Its partner is `FlagValue`, a reference reading of the
    flag/value pairs that states what each command line carries: every
    option the launcher meant to pass is read back with the intended value,
    and the three action options are read back all together or not at all.
    Starting a process and waiting for it are the operating system's part;
    `Launch` receives them as two functions of the launch position and the
    command line. */
module GeneratorsLauncher {
  import opened Formatting
  import opened TpsPartition

  const Executable := "./tests/trx_generator/trx_generator"
  const ChainIdFlag := "--chain-id"
  const LastIrreversibleBlockIdFlag := "--last-irreversible-block-id"
  const ContractOwnerAccountFlag := "--contract-owner-account"
  const AccountsFlag := "--accounts"
  const PrivKeysFlag := "--priv-keys"
  const TrxGenDurationFlag := "--trx-gen-duration"
  const TargetTpsFlag := "--target-tps"
  const LogDirFlag := "--log-dir"
  const ActionNameFlag := "--action-name"
  const ActionDataFlag := "--action-data"
  const AbiFileFlag := "--abi-file"

  /** What launching the generators ends in: every process ran and was
      waited for, or the process at `index` could not be started, which
      ends the launch with an exception and no statuses. */
  datatype Outcome =
    | Finished(exitCodes: seq<int>)
    | LaunchFailed(index: nat, command: seq<string>)

  /** A reference reading of the options after the executable, used to
      state what a command line carries: the options are taken as
      flag/value pairs, and a flag's value is the one paired with its first
      occurrence. The generator's own option parser is not modelled. */
  function FlagValue(options: seq<string>, flag: string): Option<string>
    decreases |options|
  {
    if |options| < 2 then None
    else if options[0] == flag then Some(options[1])
    else FlagValue(options[2..], flag)
  }

  /** The first pair is read first: a flag is read from it when it names
      that flag and from the rest of the options otherwise. */
  lemma FlagValuePair(f: string, v: string, tail: seq<string>)
    ensures forall flag ::
      FlagValue([f, v] + tail, flag) == (if flag == f then Some(v) else FlagValue(tail, flag))
  {
    assert ([f, v] + tail)[2..] == tail;
  }

  /** The rate a generator started with `cmd` is asked for, if its
      `--target-tps` option is present and is a number. */
  function TargetTpsOf(cmd: seq<string>): Option<nat>
  {
    if cmd == [] then None
    else match FlagValue(cmd[1..], TargetTpsFlag)
      case Some(v) => if IsDigits(v) then Some(DecimalValue(v)) else None
      case None => None
  }

  /** The rates that a list of command lines asks for, added up. */
  function TotalTargetTps(cmds: seq<seq<string>>): nat
  {
    if cmds == [] then 0
    else (match TargetTpsOf(cmds[0]) case Some(t) => t case None => 0) + TotalTargetTps(cmds[1..])
  }

  class TransactionGeneratorsLauncher {
    const chainId: string
    const lastIrreversibleBlockId: string
    const contractOwnerAccount: string
    const accts: string
    const privateKeys: string
    const trxGenDurationSec: string
    const logDir: string
    const abiFile: Option<string>
    const actionName: Option<string>
    const actionData: Option<string>
    const tpsTrxGensConfig: TpsTrxGensConfig

    constructor (chainId: string, lastIrreversibleBlockId: string, contractOwnerAccount: string,
                 accts: string, privateKeys: string, trxGenDurationSec: string, logDir: string,
                 abiFile: Option<string>, actionName: Option<string>, actionData: Option<string>,
                 tpsTrxGensConfig: TpsTrxGensConfig)
      ensures this.chainId == chainId && this.lastIrreversibleBlockId == lastIrreversibleBlockId
      ensures this.contractOwnerAccount == contractOwnerAccount && this.accts == accts
      ensures this.privateKeys == privateKeys && this.trxGenDurationSec == trxGenDurationSec
      ensures this.logDir == logDir
      ensures this.abiFile == abiFile && this.actionName == actionName && this.actionData == actionData
      ensures this.tpsTrxGensConfig == tpsTrxGensConfig
    {
      this.chainId := chainId;
      this.lastIrreversibleBlockId := lastIrreversibleBlockId;
      this.contractOwnerAccount := contractOwnerAccount;
      this.accts := accts;
      this.privateKeys := privateKeys;
      this.trxGenDurationSec := trxGenDurationSec;
      this.logDir := logDir;
      this.abiFile := abiFile;
      this.actionName := actionName;
      this.actionData := actionData;
      this.tpsTrxGensConfig := tpsTrxGensConfig;
    }

    /** The action options are passed only when all three fields are set. */
    predicate HasAction()
    {
      abiFile.Some? && actionName.Some? && actionData.Some?
    }

    /** The argument vector of the generator that is to run at `targetTps`:
        the executable, the eight options every generator gets, then the
        action options. */
    function Command(targetTps: nat): (cmd: seq<string>)
      ensures |cmd| == if HasAction() then 23 else 17
      ensures cmd[0] == Executable && cmd[1..] == CommonOptions(targetTps) + ActionOptions()
    {
      [Executable] + CommonOptions(targetTps) + ActionOptions()
    }

    /** The flag/value pairs that every generator gets. */
    function CommonOptions(targetTps: nat): (options: seq<string>)
      ensures |options| == 16
    {
      [ ChainIdFlag, chainId,
        LastIrreversibleBlockIdFlag, lastIrreversibleBlockId,
        ContractOwnerAccountFlag, contractOwnerAccount,
        AccountsFlag, accts,
        PrivKeysFlag, privateKeys,
        TrxGenDurationFlag, trxGenDurationSec,
        TargetTpsFlag, DecimalString(targetTps),
        LogDirFlag, logDir ]
    }

    /** The action pairs: all three when the three fields are set, none otherwise. */
    function ActionOptions(): (options: seq<string>)
      ensures |options| == if HasAction() then 6 else 0
    {
      if HasAction() then
        [ ActionNameFlag, actionName.value,
          ActionDataFlag, actionData.value,
          AbiFileFlag, abiFile.value ]
      else
        []
    }

    /** One command line per target, in the order of the targets. */
    function Commands(targets: seq<nat>): (cmds: seq<seq<string>>)
      ensures |cmds| == |targets|
      ensures forall i :: 0 <= i < |targets| ==> cmds[i] == Command(targets[i])
    {
      seq(|targets|, i requires 0 <= i < |targets| => Command(targets[i]))
    }

    /** What the reference reading `FlagValue` gives for the common options
        followed by `rest`: each of the eight flags gives the launcher's
        value, the rate as the decimal text of `targetTps`; any other flag is
        looked up in `rest`. */
    lemma CommonOptionsThen(targetTps: nat, rest: seq<string>)
      ensures forall flag ::
        FlagValue(CommonOptions(targetTps) + rest, flag) ==
          (if flag == ChainIdFlag then Some(chainId)
           else if flag == LastIrreversibleBlockIdFlag then Some(lastIrreversibleBlockId)
           else if flag == ContractOwnerAccountFlag then Some(contractOwnerAccount)
           else if flag == AccountsFlag then Some(accts)
           else if flag == PrivKeysFlag then Some(privateKeys)
           else if flag == TrxGenDurationFlag then Some(trxGenDurationSec)
           else if flag == TargetTpsFlag then Some(DecimalString(targetTps))
           else if flag == LogDirFlag then Some(logDir)
           else FlagValue(rest, flag))
    {
      var t7 := [LogDirFlag, logDir] + rest;
      FlagValuePair(LogDirFlag, logDir, rest);
      var t6 := [TargetTpsFlag, DecimalString(targetTps)] + t7;
      FlagValuePair(TargetTpsFlag, DecimalString(targetTps), t7);
      var t5 := [TrxGenDurationFlag, trxGenDurationSec] + t6;
      FlagValuePair(TrxGenDurationFlag, trxGenDurationSec, t6);
      var t4 := [PrivKeysFlag, privateKeys] + t5;
      FlagValuePair(PrivKeysFlag, privateKeys, t5);
      var t3 := [AccountsFlag, accts] + t4;
      FlagValuePair(AccountsFlag, accts, t4);
      var t2 := [ContractOwnerAccountFlag, contractOwnerAccount] + t3;
      FlagValuePair(ContractOwnerAccountFlag, contractOwnerAccount, t3);
      var t1 := [LastIrreversibleBlockIdFlag, lastIrreversibleBlockId] + t2;
      FlagValuePair(LastIrreversibleBlockIdFlag, lastIrreversibleBlockId, t2);
      var t0 := [ChainIdFlag, chainId] + t1;
      FlagValuePair(ChainIdFlag, chainId, t1);
      assert t0 == CommonOptions(targetTps) + rest;
    }

    /** The command line carries each of the eight common options with the
        value the launcher meant, as the reference reading `FlagValue` gives
        it back: the rate as the decimal text of `targetTps`. */
    lemma CommonOptionsRead(targetTps: nat)
      ensures var options := Command(targetTps)[1..];
        && FlagValue(options, ChainIdFlag) == Some(chainId)
        && FlagValue(options, LastIrreversibleBlockIdFlag) == Some(lastIrreversibleBlockId)
        && FlagValue(options, ContractOwnerAccountFlag) == Some(contractOwnerAccount)
        && FlagValue(options, AccountsFlag) == Some(accts)
        && FlagValue(options, PrivKeysFlag) == Some(privateKeys)
        && FlagValue(options, TrxGenDurationFlag) == Some(trxGenDurationSec)
        && FlagValue(options, TargetTpsFlag) == Some(DecimalString(targetTps))
        && FlagValue(options, LogDirFlag) == Some(logDir)
    {
      CommonOptionsThen(targetTps, ActionOptions());
    }

    /** The command line carries the three action options all together, with
        the launcher's values, as `FlagValue` reads them back, when all three
        fields are set, and none of them otherwise: a partly set action falls
        back to the short command. */
    lemma ActionOptionsRead(targetTps: nat)
      ensures var options := Command(targetTps)[1..];
        && FlagValue(options, ActionNameFlag) == (if HasAction() then actionName else None)
        && FlagValue(options, ActionDataFlag) == (if HasAction() then actionData else None)
        && FlagValue(options, AbiFileFlag) == (if HasAction() then abiFile else None)
    {
      CommonOptionsThen(targetTps, ActionOptions());
      if HasAction() {
        var t2 := [AbiFileFlag, abiFile.value];
        FlagValuePair(AbiFileFlag, abiFile.value, []);
        var t1 := [ActionDataFlag, actionData.value] + t2;
        FlagValuePair(ActionDataFlag, actionData.value, t2);
        FlagValuePair(ActionNameFlag, actionName.value, t1);
        assert ActionOptions() == [ActionNameFlag, actionName.value] + t1;
      }
    }

    /** The generator started for `targetTps` is asked for exactly that rate. */
    lemma CommandTargetTps(targetTps: nat)
      ensures TargetTpsOf(Command(targetTps)) == Some(targetTps)
    {
      CommonOptionsRead(targetTps);
      DecimalRoundTrip(targetTps);
    }

    /** The rates on a list of command lines add up to the rates they were built from. */
    lemma {:induction false} CommandsTotal(targets: seq<nat>)
      ensures TotalTargetTps(Commands(targets)) == Sum(targets)
      decreases |targets|
    {
      if targets != [] {
        CommandTargetTps(targets[0]);
        assert Commands(targets)[1..] == Commands(targets[1..]);
        CommandsTotal(targets[1..]);
      }
    }

    /** Over the whole run, the generators are asked for the target rate
        of the configuration, and no more. */
    lemma LaunchedRatesAddUp()
      requires tpsTrxGensConfig.Valid()
      ensures TotalTargetTps(Commands(tpsTrxGensConfig.targetTpsPerGenList)) == tpsTrxGensConfig.targetTps
    {
      CommandsTotal(tpsTrxGensConfig.targetTpsPerGenList);
      PartitionSum(tpsTrxGensConfig.targetTps, tpsTrxGensConfig.tpsLimitPerGenerator);
    }

    /** Starts one generator per entry of the partition, in list order,
        then waits for each in that same order. `starts(i, cmd)` says
        whether the operating system can start `cmd` as the `i`-th process
        of this launch; when it cannot, the launch ends there and the
        processes already started are left running. `exitStatus(i, cmd)` is
        the status waiting for the `i`-th process returns. Both are indexed
        by launch position, so identical command lines may fare differently. */
    method Launch(starts: (nat, seq<string>) -> bool, exitStatus: (nat, seq<string>) -> int)
      returns (launched: seq<seq<string>>, outcome: Outcome)
      ensures var cmds := Commands(tpsTrxGensConfig.targetTpsPerGenList);
        |launched| <= |cmds| && launched == cmds[..|launched|]
      ensures forall i :: 0 <= i < |launched| ==> starts(i, launched[i])
      ensures var cmds := Commands(tpsTrxGensConfig.targetTpsPerGenList);
        outcome.Finished? <==> forall i :: 0 <= i < |cmds| ==> starts(i, cmds[i])
      ensures var cmds := Commands(tpsTrxGensConfig.targetTpsPerGenList);
        outcome.Finished? ==>
          && launched == cmds
          && |outcome.exitCodes| == |cmds|
          && forall i :: 0 <= i < |cmds| ==> outcome.exitCodes[i] == exitStatus(i, cmds[i])
      ensures var cmds := Commands(tpsTrxGensConfig.targetTpsPerGenList);
        outcome.LaunchFailed? ==>
          && outcome.index == |launched| < |cmds|
          && outcome.command == cmds[outcome.index]
          && !starts(outcome.index, outcome.command)
    {
      var targets := tpsTrxGensConfig.targetTpsPerGenList;
      ghost var cmds := Commands(targets);
      launched := [];
      var i := 0;
      while i < |targets|
        invariant 0 <= i <= |targets|
        invariant launched == cmds[..i]
        invariant forall k :: 0 <= k < i ==> starts(k, launched[k])
      {
        var cmd := Command(targets[i]);
        assert cmd == cmds[i];
        if !starts(i, cmd) {
          outcome := LaunchFailed(i, cmd);
          return;
        }
        assert cmds[..i + 1] == cmds[..i] + [cmd];
        launched := launched + [cmd];
        i := i + 1;
      }
      assert launched == cmds;
      var exitCodes: seq<int> := [];
      for k := 0 to |launched|
        invariant |exitCodes| == k
        invariant forall j :: 0 <= j < k ==> exitCodes[j] == exitStatus(j, launched[j])
      {
        exitCodes := exitCodes + [exitStatus(k, launched[k])];
      }
      outcome := Finished(exitCodes);
    }
  }
}
