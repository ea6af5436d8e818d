/**
 * The mosaic config: the origin chain, the auxiliary chains anchored to it and the
 * contract addresses that bind them, together with how a config is loaded for a
 * chain name and where it is saved.
 *
 * The records are mutable objects. A field the original leaves `undefined` is an
 * `Option` (for values) or a nullable reference (for nested records), so a record
 * that came from parsed JSON can lack a nested part while a constructed one cannot.
 *
 * Loading is split into a pure decision (`MosaicConfig.Decide`) over the file's
 * state, the JSON parser's verdict and the schema validator's verdict, and the
 * method `MosaicConfig.From` that acts on it. The file system is a map from paths
 * to file contents; parser and validator are function-valued inputs.
 */
module Config {
  import opened Wrappers
  import opened Directory

  /** Contract addresses are opaque strings. */
  type Address = string

  /** Contract addresses on the origin chain that do not depend on an auxiliary chain. */
  class OriginLibraries {
    var simpleTokenAddress: Option<Address>
    var merklePatriciaLibAddress: Option<Address>
    var gatewayLibAddress: Option<Address>
    var messageBusAddress: Option<Address>
    var ostComposerAddress: Option<Address>

    /** No address has been assigned yet. */
    predicate Unset()
      reads this
    {
      && simpleTokenAddress == None
      && merklePatriciaLibAddress == None
      && gatewayLibAddress == None
      && messageBusAddress == None
      && ostComposerAddress == None
    }

    constructor ()
      ensures Unset()
    {
      simpleTokenAddress := None;
      merklePatriciaLibAddress := None;
      gatewayLibAddress := None;
      messageBusAddress := None;
      ostComposerAddress := None;
    }
  }

  /** The origin chain's name and its chain-independent contract addresses. */
  class OriginChain {
    var chain: Option<string>
    var contractAddresses: OriginLibraries?

    /** What the constructor produces: no name yet, and an address record with nothing assigned. */
    predicate IsDefault()
      reads this, contractAddresses
    {
      chain == None && contractAddresses != null && contractAddresses.Unset()
    }

    constructor ()
      ensures IsDefault() && fresh(contractAddresses)
    {
      chain := None;
      contractAddresses := new OriginLibraries();
    }
  }

  /** Origin-chain contracts that serve one auxiliary chain. */
  class OriginContracts {
    var anchorOrganizationAddress: Option<Address>
    var anchorAddress: Option<Address>
    var ostGatewayOrganizationAddress: Option<Address>
    var ostEIP20GatewayAddress: Option<Address>

    predicate Unset()
      reads this
    {
      && anchorOrganizationAddress == None
      && anchorAddress == None
      && ostGatewayOrganizationAddress == None
      && ostEIP20GatewayAddress == None
    }

    constructor ()
      ensures Unset()
    {
      anchorOrganizationAddress := None;
      anchorAddress := None;
      ostGatewayOrganizationAddress := None;
      ostEIP20GatewayAddress := None;
    }
  }

  /** Contracts deployed on an auxiliary chain. */
  class AuxiliaryContracts {
    var ostPrimeAddress: Option<Address>
    var anchorOrganizationAddress: Option<Address>
    var anchorAddress: Option<Address>
    var merklePatriciaLibAddress: Option<Address>
    var gatewayLibAddress: Option<Address>
    var messageBusAddress: Option<Address>
    var ostCoGatewayOrganizationAddress: Option<Address>
    var ostEIP20CogatewayAddress: Option<Address>

    predicate Unset()
      reads this
    {
      && ostPrimeAddress == None
      && anchorOrganizationAddress == None
      && anchorAddress == None
      && merklePatriciaLibAddress == None
      && gatewayLibAddress == None
      && messageBusAddress == None
      && ostCoGatewayOrganizationAddress == None
      && ostEIP20CogatewayAddress == None
    }

    constructor ()
      ensures Unset()
    {
      ostPrimeAddress := None;
      anchorOrganizationAddress := None;
      anchorAddress := None;
      merklePatriciaLibAddress := None;
      gatewayLibAddress := None;
      messageBusAddress := None;
      ostCoGatewayOrganizationAddress := None;
      ostEIP20CogatewayAddress := None;
    }
  }

  /** The origin-side and auxiliary-side contracts of one auxiliary chain. */
  class ContractAddresses {
    var origin: OriginContracts?
    var auxiliary: AuxiliaryContracts?

    /** Both halves are present and nothing is assigned in either. */
    predicate IsDefault()
      reads this, origin, auxiliary
    {
      origin != null && auxiliary != null && origin.Unset() && auxiliary.Unset()
    }

    constructor ()
      ensures IsDefault() && fresh(origin) && fresh(auxiliary)
    {
      origin := new OriginContracts();
      auxiliary := new AuxiliaryContracts();
    }
  }

  /** An auxiliary chain: its id, boot nodes, genesis record and contracts. */
  class AuxiliaryChain {
    var chainId: Option<int>
    var bootNodes: Option<seq<string>>
    var genesis: Option<map<string, string>>
    var contractAddresses: ContractAddresses?

    /** No id or genesis yet, no boot nodes, and a default contract-address record. */
    predicate IsDefault()
      reads this, contractAddresses
      reads if contractAddresses != null then {contractAddresses.origin, contractAddresses.auxiliary} else {}
    {
      && chainId == None
      && bootNodes == Some([])
      && genesis == None
      && contractAddresses != null
      && contractAddresses.IsDefault()
    }

    constructor ()
      ensures IsDefault() && fresh(contractAddresses)
      ensures fresh(contractAddresses.origin) && fresh(contractAddresses.auxiliary)
    {
      chainId := None;
      genesis := None;
      bootNodes := Some([]);
      contractAddresses := new ContractAddresses();
    }
  }

  /**
   * The two keys of a parsed JSON object that the config constructor looks at; a
   * missing key is `null` / `None`.
   */
  datatype RawConfig = RawConfig(originChain: OriginChain?, auxiliaryChains: Option<map<string, AuxiliaryChain>>)

  /** The object literal `{}`. */
  const EmptyObject: RawConfig := RawConfig(null, None)

  /** The file consulted for a chain name. */
  datatype FileState = Absent | Present(content: string)

  /** What the JSON parser makes of a file's text. */
  datatype ParseResult = Parsed(parsed: RawConfig) | Malformed(message: string)

  /** What the schema validator makes of a parsed object. */
  datatype Validation = Conforms | Violates(message: string)

  /** The two ways loading can fail. */
  datatype LoadError = JsonSyntaxError(message: string) | InvalidMosaicConfigException(message: string)

  /** The branch `from` takes: fall back to defaults, build from the parsed object, or throw. */
  datatype Decision = UseDefaults | Build(config: RawConfig) | Reject(error: LoadError)

  /** The state of the file at `p`. */
  function FileAt(files: map<Path, string>, p: Path): FileState {
    if p in files then Present(files[p]) else Absent
  }

  /** How a JavaScript template literal renders a name that may be `undefined`. */
  function NameText(name: Option<string>): string {
    name.GetOr("undefined")
  }

  /**
   * `<projectRoot>/mosaic_configs/<chain>.json`: the file a config is loaded from
   * and saved to. A chain name starting with the separator joins to the same path as
   * the name without it, so only relative names are spelled out.
   */
  function ConfigFilePath(env: Env, chain: string): (r: Path)
    ensures ProjectMosaicConfigDir(env) <= r
    ensures !IsAbsolute(chain) ==> r == ProjectRoot(env) + "/mosaic_configs/" + chain + ".json"
  {
    var dir := ProjectMosaicConfigDir(env);
    assert dir[|dir| - 1] == 's';
    Join(dir, chain + ".json")
  }

  /**
   * Two different chain names that are single path segments never share a config
   * file. Names with a separator can alias under `path.join` (`./dev`, `x/../dev`).
   */
  lemma ConfigPathsDistinct(env: Env, chain1: string, chain2: string)
    requires IsSingleSegment(chain1) && IsSingleSegment(chain2) && chain1 != chain2
    ensures ConfigFilePath(env, chain1) != ConfigFilePath(env, chain2)
  {
    var prefix := ProjectRoot(env) + "/mosaic_configs/";
    var p1, p2 := ConfigFilePath(env, chain1), ConfigFilePath(env, chain2);
    assert p1 == prefix + chain1 + ".json" && p2 == prefix + chain2 + ".json";
    if |chain1| == |chain2| {
      assert p1[|prefix|..|prefix| + |chain1|] == chain1;
      assert p2[|prefix|..|prefix| + |chain2|] == chain2;
    } else {
      assert |p1| != |p2|;
    }
  }

  /** A chain name with a leading separator reads and writes the same file as the name without it. */
  lemma AbsoluteChainNameAliases(env: Env)
    ensures ConfigFilePath(env, "/dev") == ConfigFilePath(env, "dev")
  {
  }

  /**
   * A value a JavaScript call expression `m()` can be applied to: the string a
   * static getter yields when it is read, or a static method returning a path.
   */
  datatype MemberValue = StringValue(text: string) | MethodValue(result: Path)

  /** Applies a member value to no arguments; a string is not callable. */
  function CallMember(name: string, v: MemberValue): (r: Result<Path, string>)
    ensures r.Success? <==> v.MethodValue?
    ensures v.MethodValue? ==> r.value == v.result
  {
    match v
    case StringValue(_) => Failure("TypeError: " + name + " is not a function")
    case MethodValue(p) => Success(p)
  }

  /**
   * The config file path as the source spells it: it reads the getter
   * `getProjectMosaicConfigDir`, which already yields the directory string, and then
   * calls that string. The call throws for every environment and chain name, before
   * the file system is touched.
   */
  function ConfigFilePathAsWritten(env: Env, chain: string): (r: Result<Path, string>)
    ensures r.Failure?
  {
    var getter := StringValue(ProjectMosaicConfigDir(env));
    match CallMember("getProjectMosaicConfigDir", getter)
    case Failure(e) => Failure(e)
    case Success(dir) => Success(Join(dir, chain + ".json"))
  }

  /** Had the directory been a static method (as `getProjectGraphDir` is), the call would yield `ConfigFilePath`. */
  lemma CallingAMethodYieldsConfigFilePath(env: Env, chain: string)
    ensures var dir := CallMember("getProjectMosaicConfigDir", MethodValue(ProjectMosaicConfigDir(env)));
      dir.Success? && Join(dir.value, chain + ".json") == ConfigFilePath(env, chain)
  {
  }

  /** The root record: the origin chain and the auxiliary chains by name. */
  class MosaicConfig {
    var originChain: OriginChain
    var auxiliaryChains: map<string, AuxiliaryChain>

    /**
     * The fields hold what the constructor made of `config`: a present part is
     * kept as the very object given, an absent one is defaulted.
     */
    predicate BuiltFrom(config: RawConfig)
      reads this, originChain, originChain.contractAddresses
    {
      && (config.originChain != null ==> originChain == config.originChain)
      && (config.originChain == null ==> originChain.IsDefault())
      && auxiliaryChains == config.auxiliaryChains.GetOr(map[])
    }

    /** A config as `new MosaicConfig({})` leaves it. */
    predicate HasDefaults()
      reads this, originChain, originChain.contractAddresses
    {
      originChain.IsDefault() && auxiliaryChains == map[]
    }

    constructor (config: RawConfig)
      ensures BuiltFrom(config)
      ensures config.originChain == null ==> fresh(originChain) && fresh(originChain.contractAddresses)
    {
      if config.originChain != null {
        originChain := config.originChain;
      } else {
        originChain := new OriginChain();
      }
      auxiliaryChains := config.auxiliaryChains.GetOr(map[]);
    }

    /** Schema validation: a violation becomes the domain exception carrying the validator's message. */
    static function ValidateSchema(validate: RawConfig -> Validation, parsed: RawConfig): (o: Outcome<LoadError>)
      ensures o.Pass? <==> validate(parsed).Conforms?
      ensures o.Fail? ==> o.error == InvalidMosaicConfigException(validate(parsed).message)
    {
      match validate(parsed)
      case Conforms => Pass
      case Violates(message) => Fail(InvalidMosaicConfigException(message))
    }

    /**
     * The branch `from` takes for the file it consults. Only a file of length zero
     * counts as empty; any other text goes to the parser.
     */
    static function Decide(file: FileState, parse: string -> ParseResult, validate: RawConfig -> Validation): (d: Decision)
      ensures d.UseDefaults? <==> file.Absent? || file.content == ""
      ensures d.Reject? && d.error.JsonSyntaxError?
          <==> file.Present? && file.content != "" && parse(file.content).Malformed?
      ensures d.Reject? && d.error.InvalidMosaicConfigException?
          <==> file.Present? && file.content != "" && parse(file.content).Parsed?
               && validate(parse(file.content).parsed).Violates?
      ensures d.Build?
          <==> file.Present? && file.content != "" && parse(file.content).Parsed?
               && validate(parse(file.content).parsed).Conforms?
      ensures file.Present? && d.Reject? && d.error.JsonSyntaxError?
          ==> d.error.message == parse(file.content).message
      ensures file.Present? && d.Reject? && d.error.InvalidMosaicConfigException?
          ==> d.error.message == validate(parse(file.content).parsed).message
      ensures file.Present? && d.Build? ==> d.config == parse(file.content).parsed
    {
      match file
      case Absent => UseDefaults
      case Present(content) =>
        if |content| == 0 then
          UseDefaults
        else
          match parse(content)
          case Malformed(message) => Reject(JsonSyntaxError(message))
          case Parsed(parsed) =>
            match ValidateSchema(validate, parsed)
            case Fail(e) => Reject(e)
            case Pass => Build(parsed)
    }

    /**
     * Loads the config of `chain` from the project's config directory: defaults when
     * the file is absent or empty, the parsed object when it parses and conforms to
     * the schema, and the parser's or the validator's error otherwise. No config is
     * constructed on an error.
     */
    static method From(env: Env, chain: string, files: map<Path, string>,
                       parse: string -> ParseResult, validate: RawConfig -> Validation)
      returns (r: Result<MosaicConfig, LoadError>)
      ensures var d := Decide(FileAt(files, ConfigFilePath(env, chain)), parse, validate);
        && (d.UseDefaults? ==>
              && r.Success? && fresh(r.value) && r.value.HasDefaults()
              && fresh(r.value.originChain) && fresh(r.value.originChain.contractAddresses))
        && (d.Build? ==>
              && r.Success? && fresh(r.value) && r.value.BuiltFrom(d.config)
              && (d.config.originChain == null ==>
                    fresh(r.value.originChain) && fresh(r.value.originChain.contractAddresses)))
        && (d.Reject? ==> r == Failure(d.error))
    {
      var filePath := ConfigFilePath(env, chain);
      var file := FileAt(files, filePath);
      var decision := Decide(file, parse, validate);
      match decision
      case Reject(e) =>
        r := Failure(e);
      case Build(parsed) =>
        var config := new MosaicConfig(parsed);
        r := Success(config);
      case UseDefaults =>
        var config := new MosaicConfig(EmptyObject);
        r := Success(config);
    }

    /**
     * Saves this config: the serialised text (produced outside the model) replaces
     * whatever was at `<projectRoot>/mosaic_configs/<originChain.chain>.json`, and
     * every other file is left alone.
     */
    method WriteToMosaicConfigDirectory(env: Env, files: map<Path, string>, serialized: string)
      returns (written: map<Path, string>, configPath: Path)
      ensures configPath == ConfigFilePath(env, NameText(originChain.chain))
      ensures configPath in written && written[configPath] == serialized
      ensures forall p :: p != configPath ==> FileAt(written, p) == FileAt(files, p)
    {
      configPath := ConfigFilePath(env, NameText(originChain.chain));
      written := files[configPath := serialized];
    }
  }

  /** A config saved for chain `chain` is exactly the file `from(chain)` consults next. */
  lemma SaveThenLoad(env: Env, chain: string, files: map<Path, string>, serialized: string,
                     parse: string -> ParseResult, validate: RawConfig -> Validation)
    ensures var saved := files[ConfigFilePath(env, NameText(Some(chain))) := serialized];
      MosaicConfig.Decide(FileAt(saved, ConfigFilePath(env, chain)), parse, validate)
        == MosaicConfig.Decide(Present(serialized), parse, validate)
  {
  }

  /** Saving the config of one chain leaves what `from` decides for every other single-segment chain name unchanged. */
  lemma SaveLeavesOtherChainsAlone(env: Env, saved: string, other: string, files: map<Path, string>,
                                   serialized: string, parse: string -> ParseResult, validate: RawConfig -> Validation)
    requires IsSingleSegment(saved) && IsSingleSegment(other) && saved != other
    ensures var after := files[ConfigFilePath(env, saved) := serialized];
      MosaicConfig.Decide(FileAt(after, ConfigFilePath(env, other)), parse, validate)
        == MosaicConfig.Decide(FileAt(files, ConfigFilePath(env, other)), parse, validate)
  {
    ConfigPathsDistinct(env, saved, other);
  }

  /** The default config carries no chain name, so saving it writes `undefined.json`. */
  lemma DefaultConfigSavesToUndefined(env: Env)
    ensures ConfigFilePath(env, NameText(None)) == ProjectRoot(env) + "/mosaic_configs/undefined.json"
  {
  }
}
