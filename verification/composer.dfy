/**
 * src/commands/Composer.ts: installing and removing the `laravel/sail` package
 * through composer, each followed by a status event.
 */
module ComposerCommands {
  import opened Wrappers
  import opened Js
  import opened Host
  import Utils

  const DEFAULT_COMPOSER_PATH := "composer"
  const INSTALL_TITLE := "Installing Laravel Sail"
  const REMOVE_TITLE := "Removing Laravel Sail"

  /** The `composerPath` setting, `composer` when unset. */
  function ComposerCommand(config: Config): string
  {
    ConfigGet(config.composerPath, DEFAULT_COMPOSER_PATH)
  }

  /** `require laravel/sail`, as a dev dependency when `dev` is set. */
  function InstallSailCommand(composerCommand: string, dev: bool): string
  {
    if dev then composerCommand + " require laravel/sail --dev" else composerCommand + " require laravel/sail"
  }

  /** The install command is the composer command, ` require laravel/sail`, and ` --dev` exactly when `dev` is set. */
  lemma InstallSailCommandShape(composerCommand: string, dev: bool)
    ensures var c := InstallSailCommand(composerCommand, dev);
      && |c| >= |composerCommand| + 21 && c[..|composerCommand|] == composerCommand
      && c[|composerCommand|..|composerCommand| + 21] == " require laravel/sail"
      && (dev <==> |c| == |composerCommand| + 27)
      && (dev ==> c[|composerCommand| + 21..] == " --dev")
  {
    var c := InstallSailCommand(composerCommand, dev);
    if dev {
      assert c == composerCommand + (" require laravel/sail" + " --dev");
    }
  }

  function RemoveSailCommand(composerCommand: string): string
  {
    composerCommand + " remove laravel/sail"
  }

  /** `installSail(dev)`: the install task under one title whatever `dev` is, then a status event. */
  function InstallSail(config: Config, dev: bool, taskOutcome: Settlement): seq<Effect>
  {
    Utils.RunTaskWithProgress(InstallSailCommand(ComposerCommand(config), dev), INSTALL_TITLE, false, config.phpPath, taskOutcome)
    + [FireStatus]
  }

  /** `removeSail()`: the remove task, then a status event. */
  function RemoveSail(config: Config, taskOutcome: Settlement): seq<Effect>
  {
    Utils.RunTaskWithProgress(RemoveSailCommand(ComposerCommand(config)), REMOVE_TITLE, false, config.phpPath, taskOutcome)
    + [FireStatus]
  }

  /** The progress wrapper never rejects, so the status event fires once, last, whatever the task's outcome. */
  lemma ThenFire(command: string, title: string, phpPath: Option<string>, taskOutcome: Settlement)
    ensures var trace := Utils.RunTaskWithProgress(command, title, false, phpPath, taskOutcome) + [FireStatus];
      && |trace| >= 1 && trace[0] == Effect.RunTask(command, title)
      && Commands(trace) == [command]
      && Fires(trace) == 1 && trace[|trace| - 1] == FireStatus
      && Questions(trace) == []
  {
    var run := Utils.RunTaskWithProgress(command, title, false, phpPath, taskOutcome);
    Utils.ProgressFacts(command, title, false, phpPath, taskOutcome);
    SingleCounts(FireStatus);
    CountsAppend(run, [FireStatus]);
  }

  /** Installing submits the install command first, fires one status event, last, and asks nothing. */
  lemma InstallSailFacts(config: Config, dev: bool, taskOutcome: Settlement)
    ensures var trace := InstallSail(config, dev, taskOutcome);
      && |trace| >= 1 && trace[0] == Effect.RunTask(InstallSailCommand(ComposerCommand(config), dev), INSTALL_TITLE)
      && Commands(trace) == [InstallSailCommand(ComposerCommand(config), dev)]
      && Fires(trace) == 1 && trace[|trace| - 1] == FireStatus
      && Questions(trace) == []
  {
    ThenFire(InstallSailCommand(ComposerCommand(config), dev), INSTALL_TITLE, config.phpPath, taskOutcome);
  }

  /** Removing submits the remove command first, fires one status event, last, and asks nothing. */
  lemma RemoveSailFacts(config: Config, taskOutcome: Settlement)
    ensures var trace := RemoveSail(config, taskOutcome);
      && |trace| >= 1 && trace[0] == Effect.RunTask(RemoveSailCommand(ComposerCommand(config)), REMOVE_TITLE)
      && Commands(trace) == [RemoveSailCommand(ComposerCommand(config))]
      && Fires(trace) == 1 && trace[|trace| - 1] == FireStatus
      && Questions(trace) == []
  {
    ThenFire(RemoveSailCommand(ComposerCommand(config)), REMOVE_TITLE, config.phpPath, taskOutcome);
  }

  /** The commands the unit tests pin with no settings. */
  lemma InstallDevAsTested()
    ensures InstallSailCommand(ComposerCommand(UNSET), true) == "composer require laravel/sail --dev"
  {
    assert ComposerCommand(UNSET) == DEFAULT_COMPOSER_PATH;
  }

  lemma InstallAsTested()
    ensures InstallSailCommand(ComposerCommand(UNSET), false) == "composer require laravel/sail"
  {
    assert ComposerCommand(UNSET) == DEFAULT_COMPOSER_PATH;
  }

  lemma RemoveAsTested()
    ensures RemoveSailCommand(ComposerCommand(UNSET)) == "composer remove laravel/sail"
  {
  }
}
