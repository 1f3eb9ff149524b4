/**
 * src/commands/Artisan.ts: publishing Sail's scaffolding with artisan run
 * through PHP, and running the migrations inside Sail.
 */
module ArtisanCommands {
  import opened Wrappers
  import opened Js
  import opened Host
  import Utils
  import SailCommands

  const DEFAULT_ARTISAN_PATH := "artisan"
  const SAIL_INSTALL_TITLE := "Publishing Docker Compose and Updating .env"
  const MIGRATE_TITLE := "Running Sail Migrate"

  /** The `artisanPath` setting, `artisan` when unset. */
  function ArtisanCommand(config: Config): string
  {
    ConfigGet(config.artisanPath, DEFAULT_ARTISAN_PATH)
  }

  function SailInstallCommand(config: Config): string
  {
    ArtisanCommand(config) + " sail:install"
  }

  function MigrateCommand(config: Config): string
  {
    ConfigGet(config.sailPath, SailCommands.DEFAULT_SAIL_PATH) + " " + ArtisanCommand(config) + " migrate"
  }

  /** `sailInstall()`: `<artisan> sail:install` through the PHP prefix. */
  function SailInstall(config: Config, taskOutcome: Settlement): seq<Effect>
  {
    Utils.RunTaskWithProgress(SailInstallCommand(config), SAIL_INSTALL_TITLE, true, config.phpPath, taskOutcome)
  }

  /** `migrate()`: `<sail> <artisan> migrate`, without the PHP prefix. */
  function Migrate(config: Config, taskOutcome: Settlement): seq<Effect>
  {
    Utils.RunTaskWithProgress(MigrateCommand(config), MIGRATE_TITLE, false, config.phpPath, taskOutcome)
  }

  /** Publishing submits its one command through PHP, under its title, fires no event and asks nothing. */
  lemma SailInstallFacts(config: Config, taskOutcome: Settlement)
    ensures var trace := SailInstall(config, taskOutcome);
      && |trace| >= 1 && trace[0] == Effect.RunTask(Utils.PhpCommand(config.phpPath, SailInstallCommand(config)), SAIL_INSTALL_TITLE)
      && Commands(trace) == [Utils.PhpCommand(config.phpPath, SailInstallCommand(config))]
      && Fires(trace) == 0 && Questions(trace) == []
  {
    Utils.ProgressFacts(SailInstallCommand(config), SAIL_INSTALL_TITLE, true, config.phpPath, taskOutcome);
  }

  /** Migrating submits its one command without PHP, under its title, fires no event and asks nothing. */
  lemma MigrateFacts(config: Config, taskOutcome: Settlement)
    ensures var trace := Migrate(config, taskOutcome);
      && |trace| >= 1 && trace[0] == Effect.RunTask(MigrateCommand(config), MIGRATE_TITLE)
      && Commands(trace) == [MigrateCommand(config)]
      && Fires(trace) == 0 && Questions(trace) == []
  {
    Utils.ProgressFacts(MigrateCommand(config), MIGRATE_TITLE, false, config.phpPath, taskOutcome);
  }

  /** With no settings, the two commands actually run. */
  lemma SailInstallAsTested()
    ensures Utils.PhpCommand(UNSET.phpPath, SailInstallCommand(UNSET)) == "php artisan sail:install"
  {
  }

  lemma MigrateAsTested()
    ensures MigrateCommand(UNSET) == "./vendor/bin/sail artisan migrate"
  {
  }
}
