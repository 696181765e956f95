/** `ConfigService` (src/services/config/config.service.ts): reads the action's inputs from
    the environment once, at initialisation, into a fixed `AppConfig`, and runs the input
    checks of `ValidationService` in a fixed order.

    The process environment is the map `env`; an absent variable reads as "". */
module Config {
  import opened Wrappers
  import opened Records
  import Strings
  import Base
  import Validation

  /** `process.env[key] || ''`. */
  function EnvValue(env: map<string, string>, key: string): (v: string)
    ensures key in env ==> v == env[key]
    ensures key !in env ==> v == ""
  {
    if key in env then env[key] else ""
  }

  /** The variable GitHub Actions sets for input `name`. */
  function InputVariable(name: string): string
  {
    "INPUT_" + Strings.ToUpper(name)
  }

  function MissingInput(name: string): string
  {
    "Required input '" + name + "' is missing"
  }

  /** `getInput(name, required)`: the raw value; a required input that is empty or unset
      fails. */
  function GetInput(env: map<string, string>, name: string, required: bool): (r: Result<string>)
    ensures r.Err? <==> required && EnvValue(env, InputVariable(name)) == ""
    ensures r.Ok? ==> r.value == EnvValue(env, InputVariable(name))
    ensures r.Err? ==> r.error == MissingInput(name)
  {
    var value := EnvValue(env, InputVariable(name));
    if required && value == "" then Err(MissingInput(name)) else Ok(value)
  }

  /** `getBooleanInput(name, defaultValue)`: "true" and "false" in any letter case; anything
      else, including an unset input, gives the default. */
  function GetBooleanInput(env: map<string, string>, name: string, defaultValue: bool): (b: bool)
    ensures var lowered := Strings.ToLower(EnvValue(env, InputVariable(name)));
            (lowered == "true" ==> b) && (lowered == "false" ==> !b)
            && (lowered != "true" && lowered != "false" ==> b == defaultValue)
  {
    var value := Strings.ToLower(GetInput(env, name, false).value);
    if value == "true" then true
    else if value == "false" then false
    else defaultValue
  }

  /** An input that is not set takes the default. */
  lemma UnsetBooleanInputIsDefault(env: map<string, string>, name: string, defaultValue: bool)
    requires InputVariable(name) !in env
    ensures GetBooleanInput(env, name, defaultValue) == defaultValue
  {
    assert Strings.ToLower("") == "";
  }

  /** Upper-case spellings are read as well. */
  lemma BooleanInputIgnoresCase(env: map<string, string>, name: string, defaultValue: bool)
    requires EnvValue(env, InputVariable(name)) == "FALSE"
    ensures GetBooleanInput(env, name, defaultValue) == false
  {
    var lowered := Strings.ToLower("FALSE");
    assert lowered == "false" by {
      assert |lowered| == 5;
      assert lowered[0] == 'f' && lowered[1] == 'a' && lowered[2] == 'l' && lowered[3] == 's' && lowered[4] == 'e';
    }
  }

  // The input names of action.yml.
  const ActivationCodeInput := "icredible_activation_code"
  const PasswordInput := "icredible_encryption_password"
  const ActionInput := "action"
  const FileVersionInput := "file_version_id"
  const RestoreTokenInput := "icredible_repository_restore_token"
  const SuspendInput := "suspend_actions"
  const OtpMethodInput := "otp_delivery_method"

  /** `value || fallback`. */
  function OrDefault(value: string, fallback: string): string
  {
    if value == "" then fallback else value
  }

  /** `getInputsFromEnvironment()`: the activation code and the password are required, in that
      order; an empty action becomes "backup", an empty OTP method "MAIL", and other values pass
      through unchecked; suspend_actions defaults to true. */
  function GetInputsFromEnvironment(env: map<string, string>): (r: Result<ActionInputs>)
    ensures EnvValue(env, InputVariable(ActivationCodeInput)) == "" ==> r == Err(MissingInput(ActivationCodeInput))
    ensures (EnvValue(env, InputVariable(ActivationCodeInput)) != "" && EnvValue(env, InputVariable(PasswordInput)) == "")
              ==> r == Err(MissingInput(PasswordInput))
    ensures r.Ok? <==> EnvValue(env, InputVariable(ActivationCodeInput)) != "" && EnvValue(env, InputVariable(PasswordInput)) != ""
    ensures r.Ok? ==>
      && r.value.activationCode == EnvValue(env, InputVariable(ActivationCodeInput))
      && r.value.encryptionPassword == EnvValue(env, InputVariable(PasswordInput))
      && r.value.action == OrDefault(EnvValue(env, InputVariable(ActionInput)), "backup")
      && r.value.fileVersionId == EnvValue(env, InputVariable(FileVersionInput))
      && r.value.restoreToken == EnvValue(env, InputVariable(RestoreTokenInput))
      && r.value.suspendActions == GetBooleanInput(env, SuspendInput, true)
      && r.value.otpDeliveryMethod == OrDefault(EnvValue(env, InputVariable(OtpMethodInput)), "MAIL")
    ensures r.Ok? ==> r.value.action != "" && r.value.otpDeliveryMethod != ""
  {
    var activationCode :- GetInput(env, ActivationCodeInput, true);
    var password :- GetInput(env, PasswordInput, true);
    Ok(ActionInputs(
      activationCode,
      password,
      OrDefault(GetInput(env, ActionInput, false).value, "backup"),
      GetInput(env, FileVersionInput, false).value,
      GetInput(env, RestoreTokenInput, false).value,
      GetBooleanInput(env, SuspendInput, true),
      OrDefault(GetInput(env, OtpMethodInput, false).value, "MAIL")))
  }

  // The fixed parts of the configuration.
  const Api := ApiConfig(
    "https://staging.api.file-security.icredible.com",
    "https://staging.management.file-security.icredible.com",
    30000,
    "iCredible-Git-Security/2.0")
  const CryptoSettings := CryptoConfig("aes-256-cbc", "pbkdf2", 10, "sha256")
  const Files := FileConfig("repo-mirror", "repo-mirror.tar", "repo-mirror.tar.zst", "repo-mirror.tar.zst.enc")
  const Endpoint := EndpointConfig("PC")
  const GitIdentity := GitConfig("iCredible Git Security", "icredible-git-sec@icredible.com")
  const Otp := OtpConfig("FileDownload", "Number", "Workstation", "1")
  const Upload := UploadConfig(32, "None", "NoCompression", "None", 1)

  /** `buildConfig()`: the inputs read from the environment next to constant settings; the
      four artefact names are fixed: "repo-mirror", and each of the others extends the
      previous one, ending in "repo-mirror.tar.zst.enc". */
  function BuildConfig(env: map<string, string>): (r: Result<AppConfig>)
    ensures r.Ok? <==> GetInputsFromEnvironment(env).Ok?
    ensures r.Err? ==> r.error == GetInputsFromEnvironment(env).error
    ensures r.Ok? ==>
      && r.value.inputs == GetInputsFromEnvironment(env).value
      && r.value.files.tarArchiveFile == r.value.files.sourceArchiveDir + ".tar"
      && r.value.files.compressedArchiveFile == r.value.files.tarArchiveFile + ".zst"
      && r.value.files.encryptedArchiveFile == r.value.files.compressedArchiveFile + ".enc"
      && r.value.files.sourceArchiveDir == "repo-mirror"
      && r.value.files.encryptedArchiveFile == "repo-mirror.tar.zst.enc"
      && r.value.otp.sourceType == "FileDownload"
  {
    var inputs :- GetInputsFromEnvironment(env);
    Ok(AppConfig(inputs, Api, CryptoSettings, Endpoint, Files, GitIdentity, Otp, Upload))
  }

  const ConfigNotInitialized := "Configuration not properly initialized"

  /** The inputs pass `validateInputs`: password, action and OTP method, and for a restore the
      restore inputs as well. */
  predicate InputsValid(inputs: ActionInputs)
  {
    && Validation.ValidatePassword(inputs.encryptionPassword).Pass?
    && Validation.ValidateActionType(inputs.action).Pass?
    && Validation.ValidateOtpMethod(inputs.otpDeliveryMethod).Pass?
    && (inputs.action == "restore" ==>
          Validation.ValidateRestoreInputs(Some(inputs.fileVersionId), Validation.Boolean(inputs.suspendActions)).Pass?)
  }

  class ConfigService {
    /** The process environment the service reads at initialisation. */
    const env: map<string, string>
    var initialized: bool
    var config: Option<AppConfig>

    constructor (env: map<string, string>)
      ensures this.env == env && !initialized && config == None
    {
      this.env := env;
      initialized := false;
      config := None;
    }

    /** `initialize()`: `onInitialize` initialises the validation service (which cannot fail)
        and builds the configuration; a missing required input leaves the service
        uninitialised. */
    method Initialize() returns (r: Outcome)
      modifies this
      ensures old(initialized) ==> r == Pass && initialized && config == old(config)
      ensures !old(initialized) ==>
        && (r.Pass? <==> BuildConfig(env).Ok?)
        && (r.Fail? ==> r.error == BuildConfig(env).error && config == old(config))
        && (r.Pass? ==> config == Some(BuildConfig(env).value))
      ensures initialized <==> old(initialized) || r.Pass?
    {
      if initialized {
        return Pass;
      }
      var built := BuildConfig(env);
      if built.Err? {
        return Fail(built.error);
      }
      config := Some(built.value);
      initialized := true;
      r := Pass;
    }

    /** `getConfig()`: refused before initialisation, and when no configuration was built. */
    function GetConfig(): (r: Result<AppConfig>)
      reads this
      ensures r.Ok? <==> initialized && config.Some?
      ensures !initialized ==> r == Err(Base.NotInitializedMessage("ConfigService"))
      ensures initialized && config.None? ==> r == Err(ConfigNotInitialized)
      ensures r.Ok? ==> r.value == config.value
    {
      if !initialized then Err(Base.EnsureInitialized(initialized, "ConfigService").error)
      else if config.None? then Err(ConfigNotInitialized)
      else Ok(config.value)
    }

    /** `validateInputs(inputs)`: the guard, then password, action type and OTP method, then
        (for a restore only) the restore inputs; the first failing check is reported. */
    function ValidateInputs(inputs: ActionInputs): (r: Outcome)
      reads this
      ensures r.Pass? <==> initialized && InputsValid(inputs)
      ensures !initialized ==> r == Fail(Base.NotInitializedMessage("ConfigService"))
      ensures (initialized && Validation.ValidatePassword(inputs.encryptionPassword).Fail?)
                ==> r == Validation.ValidatePassword(inputs.encryptionPassword)
      ensures (initialized && Validation.ValidatePassword(inputs.encryptionPassword).Pass?
               && Validation.ValidateActionType(inputs.action).Fail?)
                ==> r == Validation.ValidateActionType(inputs.action)
      ensures (initialized && Validation.ValidatePassword(inputs.encryptionPassword).Pass?
               && Validation.ValidateActionType(inputs.action).Pass?
               && Validation.ValidateOtpMethod(inputs.otpDeliveryMethod).Fail?)
                ==> r == Validation.ValidateOtpMethod(inputs.otpDeliveryMethod)
      ensures (initialized && Validation.ValidatePassword(inputs.encryptionPassword).Pass?
               && Validation.ValidateActionType(inputs.action).Pass?
               && Validation.ValidateOtpMethod(inputs.otpDeliveryMethod).Pass?
               && inputs.action == "restore")
                ==> r == Validation.ValidateRestoreInputs(Some(inputs.fileVersionId), Validation.Boolean(inputs.suspendActions))
    {
      var guard := Base.EnsureInitialized(initialized, "ConfigService");
      var password := Validation.ValidatePassword(inputs.encryptionPassword);
      var action := Validation.ValidateActionType(inputs.action);
      var otp := Validation.ValidateOtpMethod(inputs.otpDeliveryMethod);
      if guard.Fail? then guard
      else if password.Fail? then password
      else if action.Fail? then action
      else if otp.Fail? then otp
      else if inputs.action == "restore" then
        Validation.ValidateRestoreInputs(Some(inputs.fileVersionId), Validation.Boolean(inputs.suspendActions))
      else
        Pass
    }
  }

  /** Inputs read from the environment never fail the restore checks on the suspend flag,
      which is always a boolean: a restore with a file version id is refused only by the
      password, action or OTP method checks. */
  lemma RestoreNeedsOnlyFileVersion(inputs: ActionInputs)
    requires inputs.action == "restore" && inputs.fileVersionId != ""
    ensures Validation.ValidateRestoreInputs(Some(inputs.fileVersionId), Validation.Boolean(inputs.suspendActions)) == Pass
  {
  }

  /** After a successful initialisation `getConfig` returns the configuration built from the
      environment. */
  method InitializeThenGetConfig(s: ConfigService) returns (r: Result<AppConfig>)
    requires !s.initialized
    modifies s
    ensures r.Ok? <==> BuildConfig(s.env).Ok?
    ensures r.Ok? ==> r.value == BuildConfig(s.env).value
  {
    var init := s.Initialize();
    if init.Fail? {
      return Err(init.error);
    }
    r := s.GetConfig();
  }
}
