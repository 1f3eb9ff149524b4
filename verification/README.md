# Laravel Sail for VS Code, modelled in Dafny

This project models the core of the Laravel Sail extension for Visual Studio Code:
- the commands that drive `sail`, `composer` and `artisan` as editor tasks;
- the helpers that run shell commands and read `composer.json`;
- the three views: the dashboard webview, the older sidebar webview and the containers tree;
- the route-list panel with its refresh interval.

The editor, the shell and the file system are not modelled. What they would return is an input instead:
- the result of a process (error, stdout, stderr);
- the parsed `composer.json`;
- the end events of tasks;
- the user's answers to quick picks;
- a JSON parser, passed as a function.

What the extension does in response is recorded as a trace of effects (module `Host`):
- a task run with its command line and title;
- a status-change event;
- an error message;
- a question asked;
- a view re-rendered.

Properties about traces count their commands, questions and events (`Commands`, `Questions`, `Fires`).

Each source file has one module:

- `Js`: the JavaScript semantics the code relies on: `trim`, `split`, `includes`, integers in template strings, truthiness, and `config.get(key, default)` versus `|| default`.
- `Host`: workspace folders, `composer.json`, configuration and effect traces.
- `Utils` (src/utils.ts): `runCommand`, `runTask` with its end-of-task listener, `runTaskWithProgress`, `runPHPTask`, and the project predicates.
- `ExecuteAsTask` (src/utils/ExecuteAsTask.ts): building the task and deciding its outcome.
- `Common` (src/Common.ts): `execCmd`, `execArtisanCmd` and `showError`.
- `SailCommands` (src/commands/Sail.ts): the `Sail` class, its per-service commands and `ps`.
- `ComposerCommands` (src/commands/Composer.ts) and `ArtisanCommands` (src/commands/Artisan.ts).
- `HtmlProvider` (src/providers/HtmlProvider.ts): the colour, icon, badge and buttons of the status page.
- `Dashboard` (src/providers/DashboardWebViewProvider.ts): the aggregate status, the page choice, and the message handler as a class.
- `Sidebar` (src/providers/SailSidebarProvider.ts): the older view as a class.
- `ContainersTree` (src/providers/ContainersTreeViewProvider.ts): the tree's containers, ports and items.
- `ArtisanRoute` (src/commands/artisan/Route.ts): parsing and drawing the route table, and the panel and interval state as a class.

## Model

| member | source | states |
|---|---|---|
| Js.TrimSpec | src/commands/Sail.ts:40 | `trim` never lengthens its input and leaves no white space at either end. It gives the empty string exactly when the input is all white space. |
| Js.TrimStartSpec | src/commands/Sail.ts:40 | The leading part `trim` drops is all white space, and what remains is a suffix of the input that starts with a non-space. |
| Js.TrimEndSpec | src/commands/Sail.ts:40 | The trailing part `trim` drops is all white space, and what remains is a prefix of the input that ends with a non-space. |
| Js.BlankTrimsToEmpty | src/providers/ContainersTreeViewProvider.ts:33 | Blank command output trims to the empty string. |
| Js.Split | src/commands/Sail.ts:40 | `split` on one character gives at least one piece, and no piece holds the separator. |
| Js.JoinSplit | src/commands/Sail.ts:40 | Joining the pieces of a split with the separator gives back the original text. |
| Js.SplitJoin | src/commands/Sail.ts:40 | Splitting a join of separator-free pieces gives back the pieces. |
| Js.SplitCount | src/commands/Sail.ts:40 | A split gives one more piece than the text has separators. |
| Js.Includes | src/commands/Sail.ts:46 | `includes` is true exactly when the substring occurs at some position. |
| Js.NatToString | src/utils.ts:40 | A natural number prints as decimal digits with no leading zero, and the digits read back as the number. |
| Js.IntToString | src/utils.ts:40 | An integer prints with a leading minus exactly when it is negative. |
| Js.ConfigGet | src/commands/Sail.ts:10 | `get(key, default)` falls back to the default only when the key is unset. |
| Js.OrDefault | src/utils.ts:51 | `get(key) \|\| default` falls back to the default on any falsy value. |
| Js.DefaultingRulesDiffer | src/utils.ts:51 | The two defaulting rules disagree exactly on an explicit empty string. |
| Utils.RunCommand | src/utils.ts:99-118 | With no workspace it rejects. Otherwise it runs in the first folder and resolves with stdout exactly when there is neither an error nor stderr. The error takes precedence over stderr. |
| Utils.FirstEnd | src/utils.ts:34-44 | The listener reacts to the first end event of its own task. |
| Utils.FirstEndUnique | src/utils.ts:34-44 | That first end event is unique. |
| Utils.FirstVerdict | src/utils.ts:34-44 | The promise settles exactly when the task's end event arrives, with the verdict on that event's exit code. |
| Utils.EndsSnoc | src/utils.ts:34-44 | A later event never changes which end event came first. |
| Utils.OtherTasksIgnored | src/utils.ts:35 | End events of other tasks do not affect the outcome. |
| Utils.EndListener.Notify | src/utils.ts:34-44 | The task's own end disposes the listener once and settles the promise. Anything else leaves the listener as it was. |
| Utils.EndListener.Feed | src/utils.ts:34-44 | Over a sequence of events, the listener is disposed at most once and settles with the first verdict. |
| Utils.RunTaskVerdict | src/utils.ts:37-42 | Exit code 0 resolves. Any other exit code rejects with "Task failed with exit code" followed by the code. |
| Utils.RunTask | src/utils.ts:24-48 | A failure to start the task rejects with that error. Otherwise the outcome is the first end event's verdict, and the listener is disposed once if the task ends. |
| Utils.RunTaskResolvesIff | src/utils.ts:37-38 | `runTask` resolves exactly when the task's first end event has exit code 0. |
| Utils.RunTaskRejectsWithCode | src/utils.ts:39-42 | A non-zero exit code rejects with a message that carries that code. |
| Utils.RunTaskExitCodeOneMessage | src/test/utils.test.ts:64-98 | Exit code 1 gives the message the unit test expects. |
| Utils.PhpCommand | src/utils.ts:50-54 | The PHP command is the configured path, or `php` when that is falsy, then a space, then the command. |
| Utils.RunTaskWithProgress | src/utils.ts:6-22 | Defined as the task, through the PHP prefix when asked, followed by one error message when the task rejects. Its facts are in `Utils.ProgressFacts`. |
| Utils.ProgressFacts | src/utils.ts:6-22 | `runTaskWithProgress` runs exactly one task, prefixed with PHP when asked. It asks nothing and fires nothing. A rejection becomes exactly one error message and is not rethrown. |
| Utils.ReadComposer | src/utils.ts:65-78 | `composer.json` is read from the first folder. A missing folder or file gives nothing, and an unparsable file throws. |
| Utils.IsLaravelProject | src/utils.ts:65-80 | True exactly when the first folder's `composer.json` has a truthy `laravel/framework` requirement. It throws exactly when the file cannot be parsed. |
| Utils.IsSailInstalled | src/utils.ts:82-97 | True exactly when `laravel/sail` is a truthy entry in `require` or in `require-dev`. It throws under the same condition. |
| ExecuteAsTask.Effective | src/utils/ExecuteAsTask.ts:13 | Missing options are the empty option set. |
| ExecuteAsTask.TaskCwd | src/utils/ExecuteAsTask.ts:20 | The working directory is a truthy `cwd`, else the folder's path, else the home directory. |
| ExecuteAsTask.MakeTask | src/utils/ExecuteAsTask.ts:15-34 | The task carries the command, name and source `Laravel Sail`. Its scope is the folder when one is given. The id is randomised exactly when `alwaysRunNew` is set, and focus is requested exactly when `focus` is set. |
| ExecuteAsTask.Verdict | src/utils/ExecuteAsTask.ts:43-47 | It rejects with the exit code exactly when `rejectOnError` is set and the code is non-zero. |
| ExecuteAsTask.Run | src/utils/ExecuteAsTask.ts:12-53 | It builds the task. A failure to execute rejects with no listener disposed. Otherwise the outcome is the first end event's verdict. |
| ExecuteAsTask.RejectsIff | src/utils/ExecuteAsTask.ts:38-50 | Once the task ends, the promise rejects exactly when `rejectOnError` is set and the exit code is non-zero. |
| ExecuteAsTask.NoOptionsNeverFails | src/utils/ExecuteAsTask.ts:13 | Without options the promise never rejects with any exit code, and it resolves once the task ends. |
| Common.WorkingPath | src/Common.ts:15 | The path is the first folder's path, or `./` when there is no folder. |
| Common.ShellLine | src/Common.ts:16-20 | On Windows the line changes drive with `cd /d`. Elsewhere it uses plain `cd`. |
| Common.ShellLinesDifferByDriveSwitch | src/Common.ts:16-20 | The two shell lines differ only by the three-character `/d ` switch. |
| Common.RunPrefixed | src/Common.ts:11-31 | The command is logged, then executed with a 200 KiB buffer. An error is logged and shows the console. The callback comes last and comes once. |
| Common.ExecCmd | src/Common.ts:6-32 | Defined as `RunPrefixed` on `./vendor/bin/sail ` and the command. Its facts are in `Common.RunPrefixed`. |
| Common.ExecArtisanCmd | src/Common.ts:34-59 | Defined as `RunPrefixed` on `./vendor/bin/sail artisan ` and the command. Its facts are in `Common.RunPrefixed` and `Common.ArtisanIsSailArtisan`. |
| Common.ArtisanIsSailArtisan | src/Common.ts:34-59 | `execArtisanCmd c` does exactly what `execCmd "artisan " + c` does. |
| Common.ShowError | src/Common.ts:61-68 | It returns false. The message gets the console hint exactly when there is a console error, and the console error is logged first with the hint. |
| SailCommands.Verb | src/commands/Sail.ts:13-52 | Every action has a non-empty sail verb. |
| SailCommands.ActionTrace | src/commands/Sail.ts:13-36 | Defined as the action's task, followed by one status event when the action changes state and its task resolved. Its facts are in `SailCommands.ActionTraceFacts`. |
| SailCommands.ActionTraceFacts | src/commands/Sail.ts:13-36 | Each action runs one task with its command and title. The status event fires exactly for the state-changing actions, and only when the task resolves. |
| SailCommands.ActionCommandInjective | src/commands/Sail.ts:13-52 | Different actions or services never give the same command line. |
| SailCommands.StartAsTested | src/test/commands/sail.test.ts:30-35 | `start mysql` runs `./vendor/bin/sail up mysql` titled "Starting mysql". |
| SailCommands.StopAsTested | src/test/commands/sail.test.ts:37-42 | `stop mysql` runs `sail down mysql` titled "Stopping mysql". |
| SailCommands.KillAsTested | src/test/commands/sail.test.ts:44-49 | `kill mysql` runs `sail kill mysql` titled "Killing mysql". |
| SailCommands.PauseAsTested | src/test/commands/sail.test.ts:51-56 | `pause mysql` runs `sail pause mysql` titled "Pausing mysql". |
| SailCommands.UnpauseAsTested | src/test/commands/sail.test.ts:58-63 | `unpause mysql` runs `sail unpause mysql` titled "Unpausing mysql". |
| SailCommands.StatsAsTested | src/test/commands/sail.test.ts:74-79 | `stats mysql` runs `sail stats mysql` titled "Showing stats for mysql". |
| SailCommands.Classify | src/commands/Sail.ts:46 | The status is paused when it contains `Paused`. Otherwise it is killed when it contains `Exited`. Otherwise it is running. |
| SailCommands.ClassifyRunning | src/commands/Sail.ts:46 | An "Up 2 hours" status is running. |
| SailCommands.ClassifyPaused | src/commands/Sail.ts:46 | A paused status is paused. |
| SailCommands.ClassifyKilled | src/commands/Sail.ts:46 | An exited status is killed. |
| SailCommands.OutputLines | src/commands/Sail.ts:40 | The trimmed output is cut into newline-free lines that join back into it, one more line than it has newlines. |
| SailCommands.ParseLines | src/commands/Sail.ts:41 | Parsing succeeds exactly when every line parses, giving one value per line in order. Otherwise it fails with the syntax error. |
| SailCommands.ToContainer | src/commands/Sail.ts:41-47 | A record maps to its service, state, ports, image and classified status. A record with no status throws. |
| SailCommands.ToContainers | src/commands/Sail.ts:41-47 | It succeeds exactly when every record has a status, giving one container per record in order. |
| SailCommands.ParsePs | src/commands/Sail.ts:38-48 | A failed command's error propagates. |
| SailCommands.PsSucceedsIff | src/commands/Sail.ts:38-48 | `ps` succeeds exactly when every output line parses and has a status. |
| SailCommands.PsOneRecordPerLine | src/commands/Sail.ts:38-48 | A successful `ps` gives one container per output line, in order, each built from that line's record. |
| SailCommands.PsBlankOutputFails | src/commands/Sail.ts:40-41 | Blank output is one empty line, which does not parse, so `ps` fails instead of returning an empty list. |
| SailCommands.Sail.constructor | src/commands/Sail.ts:8-11 | The sail command is the configured path, or the default when it is unset. |
| SailCommands.Sail.Start | src/commands/Sail.ts:13-16 | Appends the `up` task and fires the status event on success. The task's outcome is passed on. |
| SailCommands.Sail.Stop | src/commands/Sail.ts:18-21 | Appends the `down` task and fires the status event on success. |
| SailCommands.Sail.Kill | src/commands/Sail.ts:23-26 | Appends the `kill` task and fires the status event on success. |
| SailCommands.Sail.Pause | src/commands/Sail.ts:28-31 | Appends the `pause` task and fires the status event on success. |
| SailCommands.Sail.Unpause | src/commands/Sail.ts:33-36 | Appends the `unpause` task and fires the status event on success. |
| SailCommands.Sail.Stats | src/commands/Sail.ts:50-52 | Appends the `stats` task and never fires. |
| SailCommands.Sail.Ps | src/commands/Sail.ts:38-48 | Runs `ps --all --format json` and propagates its failure. |
| ComposerCommands.InstallSailCommandShape | src/commands/Composer.ts:13-14 | The install command is the composer path, then ` require laravel/sail`, then ` --dev` exactly when installing for development. |
| ComposerCommands.InstallSail | src/commands/Composer.ts:13-17 | Defined as the progress-wrapped install task, then a status event. Its facts are in `ComposerCommands.InstallSailFacts`. |
| ComposerCommands.RemoveSail | src/commands/Composer.ts:19-22 | Defined as the progress-wrapped remove task, then a status event. Its facts are in `ComposerCommands.RemoveSailFacts`. |
| ComposerCommands.InstallSailFacts | src/commands/Composer.ts:13-17 | Installing runs one task with that command and then always fires the status event, since the progress wrapper swallows failures. |
| ComposerCommands.RemoveSailFacts | src/commands/Composer.ts:19-22 | Removing runs one `remove laravel/sail` task and then always fires the status event. |
| ComposerCommands.InstallAsTested | src/test/commands/composer.test.ts:22-27 | With default settings the install command is `composer require laravel/sail`. |
| ComposerCommands.InstallDevAsTested | src/test/commands/composer.test.ts:29-34 | With default settings the development install adds `--dev`. |
| ComposerCommands.RemoveAsTested | src/test/commands/composer.test.ts:36-41 | With default settings the remove command is `composer remove laravel/sail`. |
| ArtisanCommands.SailInstall | src/commands/Artisan.ts:14-16 | Defined as the progress-wrapped `sail:install` task through the PHP prefix. Its facts are in `ArtisanCommands.SailInstallFacts`. |
| ArtisanCommands.Migrate | src/commands/Artisan.ts:18-20 | Defined as the progress-wrapped migration task, without the PHP prefix. Its facts are in `ArtisanCommands.MigrateFacts`. |
| ArtisanCommands.SailInstallFacts | src/commands/Artisan.ts:14-16 | Publishing runs one PHP task, `artisan sail:install` behind the PHP path, and fires nothing. |
| ArtisanCommands.MigrateFacts | src/commands/Artisan.ts:18-20 | Migrating runs one task, the sail path then the artisan path then `migrate`, without PHP. |
| ArtisanCommands.SailInstallAsTested | src/test/commands/artisan.test.ts:31-36 | With default settings publishing runs `php artisan sail:install`. |
| ArtisanCommands.MigrateAsTested | src/test/commands/artisan.test.ts:24-29 | With default settings migrating runs `./vendor/bin/sail artisan migrate`. |
| HtmlProvider.StatusColor | src/providers/HtmlProvider.ts:107 | Green exactly for `working`, yellow exactly for `warning`, red otherwise. |
| HtmlProvider.StatusIcon | src/providers/HtmlProvider.ts:108 | `check` exactly for `working`, `alert` exactly for `warning`, `error` otherwise. |
| HtmlProvider.ComposeFileBadge | src/providers/HtmlProvider.ts:110-112 | The compose badge says it exists exactly when the compose path is truthy. |
| HtmlProvider.SailStatusView | src/providers/HtmlProvider.ts:103-141 | Defined as the status with its colour, icon, compose badge and buttons. Their facts are in `HtmlProvider.StatusColor`, `StatusIcon`, `ComposeFileBadge` and `SidebarActions`, and `Dashboard.DashboardStatusDrift` and `Dashboard.IntendedStatusViewTracksContainers` state what the dashboard shows with it. |
| HtmlProvider.ActionIdsDistinct | src/providers/HtmlProvider.ts:143-176 | No two buttons post the same command. |
| HtmlProvider.SidebarActions | src/providers/HtmlProvider.ts:143-176 | With a compose file: the Up buttons exactly when the status is `stopped`, the running set otherwise, and Open Docker Compose last. Without one: only Publish. No button appears twice. |
| HtmlProvider.GetSidebarActions | src/providers/HtmlProvider.ts:143-176 | The button list built step by step equals that specification. |
| Dashboard.RunningCount | src/providers/DashboardWebViewProvider.ts:93 | The count is zero exactly when no container runs, and equals the length exactly when all run. |
| Dashboard.GetSailStatus | src/providers/DashboardWebViewProvider.ts:92-103 | Green exactly when at least one container exists and all run. Yellow exactly when some but not all run. Red exactly when none runs. |
| Dashboard.SelectPage | src/providers/DashboardWebViewProvider.ts:105-120 | Docker down gives its page first. Then not Laravel, then Sail not installed, then the status page. An unreadable `composer.json` throws exactly past the Docker check. |
| Dashboard.DashboardStatusDrift | src/providers/DashboardWebViewProvider.ts:116-118 | As written the status page is always red with an error icon. With a compose file it always shows the running buttons and never Up. |
| Dashboard.DashboardDriftWitness | src/providers/DashboardWebViewProvider.ts:116-118 | A project whose only container has exited is shown no Up button. |
| Dashboard.IntendedStatus | src/providers/HtmlProvider.ts:107-108 | Translates green, yellow and red to the words the page tests for: working, warning and stopped. |
| Dashboard.IntendedStatusViewTracksContainers | src/providers/HtmlProvider.ts:103-176 | With the intended words the colour follows the containers, and Up is offered exactly when a compose file exists and nothing runs. |
| Dashboard.MigrateStepFacts | src/providers/DashboardWebViewProvider.ts:60-66 | The migration runs exactly when the answer is Yes. |
| Dashboard.PublishFlowFacts | src/providers/DashboardWebViewProvider.ts:56-67 | Publishing runs `sail:install`, then possibly the migration. It asks the migration question exactly when publishing, and fires nothing. |
| Dashboard.AfterInstallFacts | src/providers/DashboardWebViewProvider.ts:50-67 | After installing, the view refreshes. It asks to publish, then runs the publish commands. |
| Dashboard.InstallFlowFacts | src/providers/DashboardWebViewProvider.ts:48-68 | A dismissed first question does nothing. Otherwise the install command runs with `--dev` exactly on Yes, followed by the publish commands, the questions in order, and exactly one status event. |
| Dashboard.MessageTrace | src/providers/DashboardWebViewProvider.ts:40-83 | Defined per message: `install` asks and runs the install flow, `reload` re-renders, `sailUp` starts and re-renders on success, `publish` publishes and re-renders, and anything else does nothing. Its facts are in `Dashboard.InstallMessageFacts`, `SailUpMessageFacts` and `PublishMessageFacts`. |
| Dashboard.InstallMessageFacts | src/providers/DashboardWebViewProvider.ts:42-70 | The whole `install` message: its commands, its questions in order, and its status events. |
| Dashboard.SailUpMessageFacts | src/providers/DashboardWebViewProvider.ts:74-77 | `sailUp` runs `up` with an empty service, and re-renders exactly when that task resolves. |
| Dashboard.PublishMessageFacts | src/providers/DashboardWebViewProvider.ts:78-81 | `publish` runs the PHP `sail:install` task and then re-renders. |
| Dashboard.MessagePage | src/providers/DashboardWebViewProvider.ts:40-83 | The page after a message: unknown messages and dismissed installs leave it, a published install shows the installed page, and a failed `sailUp` leaves it. |
| Dashboard.DashboardWebView.constructor | src/providers/DashboardWebViewProvider.ts:19-24 | A new dashboard has no view and no page. |
| Dashboard.DashboardWebView.UpdateWebviewContent | src/providers/DashboardWebViewProvider.ts:105-120 | Re-renders the page. |
| Dashboard.DashboardWebView.ResolveWebviewView | src/providers/DashboardWebViewProvider.ts:26-38 | Records the view and renders once. |
| Dashboard.DashboardWebView.Refresh | src/providers/DashboardWebViewProvider.ts:86-90 | Re-renders only when a view exists. |
| Dashboard.DashboardWebView.ShowSailInstalledMessage | src/providers/DashboardWebViewProvider.ts:122-126 | Shows the installed page only when a view exists. |
| Dashboard.DashboardWebView.PublishAndMigrate | src/providers/DashboardWebViewProvider.ts:52-67 | Asks to publish. On Yes it runs `sail:install`, shows the installed page and offers the migration. |
| Dashboard.DashboardWebView.HandleInstall | src/providers/DashboardWebViewProvider.ts:42-70 | The trace of the `install` message equals the install flow, and the page equals its specification. |
| Dashboard.DashboardWebView.HandleMessage | src/providers/DashboardWebViewProvider.ts:40-83 | Every message appends exactly its specified trace and leaves the page its specification gives. |
| Sidebar.IsLaravelProject | src/providers/SailSidebarProvider.ts:123-138 | Defined as the view's own reading of `composer.json`: false without folders or without the file, a throw on an empty folder list or an unparsable file, else the truthiness of `laravel/framework`. Its facts are in `Sidebar.DuplicatedChecksAgree`. |
| Sidebar.IsSailInstalled | src/providers/SailSidebarProvider.ts:140-155 | Defined as the same reading, testing `laravel/sail` in `require` or `require-dev`. Its facts are in `Sidebar.DuplicatedChecksAgree`. |
| Sidebar.DuplicatedChecksAgree | src/providers/SailSidebarProvider.ts:123-155 | The view's private project checks agree with those in src/utils.ts, throws included. |
| Sidebar.SelectSidebarPage | src/providers/SailSidebarProvider.ts:62-68 | The install prompt shows exactly for a Laravel project without Sail, and the other text otherwise. Reading throws exactly when `composer.json` is unparsable or the folder list is empty. |
| Sidebar.InstallCommandFor | src/providers/SailSidebarProvider.ts:35 | The `--dev` command exactly on Yes. |
| Sidebar.PublishStepFacts | src/providers/SailSidebarProvider.ts:43-45 | Publishing runs `php artisan sail:install` exactly on Yes, and asks nothing. |
| Sidebar.AfterInstallFacts | src/providers/SailSidebarProvider.ts:37-45 | After installing it re-renders first and fires nothing. When that render throws the handler ends there, with no question and no command. Otherwise it asks the publish question once and runs `php artisan sail:install` exactly on Yes. |
| Sidebar.InstallFlowFacts | src/providers/SailSidebarProvider.ts:30-47 | A dismissed question does nothing. Otherwise the chosen install command runs first, and what follows the re-render comes last. No status event fires. |
| Sidebar.InstallMessageStopsFacts | src/providers/SailSidebarProvider.ts:28-46 | A dismissed first pick runs nothing and asks only the first question. When the re-render after installing throws, only the install command has run, only the first question was asked, and the re-render is the last effect. |
| Sidebar.InstallMessageProceedsFacts | src/providers/SailSidebarProvider.ts:28-46 | When the re-render succeeds, the install command runs, and `php artisan sail:install` follows on a second Yes. Both questions are asked in order, and the publish command comes after the re-render. |
| Sidebar.MessageTrace | src/providers/SailSidebarProvider.ts:26-53 | Defined per message: `install` asks and runs the install flow, `reload` re-renders, and anything else does nothing. Its facts are in `Sidebar.InstallMessageStopsFacts`, `InstallMessageProceedsFacts` and `MessageTraceFacts`. |
| Sidebar.MessageTraceFacts | src/providers/SailSidebarProvider.ts:26-53 | No message fires a status event. `reload` only re-renders, and anything else does nothing. |
| Sidebar.SidebarView.constructor | src/providers/SailSidebarProvider.ts:10 | A new sidebar has no view, no message handler and no page. |
| Sidebar.SidebarView.UpdateWebviewContent | src/providers/SailSidebarProvider.ts:62-68 | Re-renders the page. When the workspace cannot be read it throws to its caller and the page is kept. |
| Sidebar.SidebarView.ResolveWebviewView | src/providers/SailSidebarProvider.ts:12-26 | Records the view and renders once. The message handler is registered exactly when that render does not throw. |
| Sidebar.SidebarView.Refresh | src/providers/SailSidebarProvider.ts:56-60 | Re-renders only when a view exists, and passes a throwing render on to its caller. |
| Sidebar.SidebarView.HandleInstall | src/providers/SailSidebarProvider.ts:28-48 | The trace of `install` equals the install flow. The handler throws exactly when an answer was given and the re-render throws. The page is re-rendered exactly when an answer was given. |
| Sidebar.SidebarView.HandleMessage | src/providers/SailSidebarProvider.ts:26-53 | Only a registered handler receives messages. Every message appends exactly its specified trace. The handler throws exactly when one of its re-renders throws, and the page changes only on a re-render. |
| ContainersTree.ToRecords | src/providers/ContainersTreeViewProvider.ts:37-42 | One record per line, built field by field. |
| ContainersTree.GetSailContainers | src/providers/ContainersTreeViewProvider.ts:30-47 | A failed command gives no containers, and so does any line that does not parse. Otherwise there is one record per line, in order. |
| ContainersTree.TreeBlankOutputEmpty | src/providers/ContainersTreeViewProvider.ts:31-46 | Blank output, whose one empty line does not parse, gives an empty tree. |
| ContainersTree.PsFailsWhereTreeIsEmpty | src/providers/ContainersTreeViewProvider.ts:43-46 | A line that neither parser accepts makes `ps` fail and leaves the tree empty. |
| ContainersTree.ContainerItem | src/providers/ContainersTreeViewProvider.ts:54-65 | A container item is collapsible, labelled by name and described by image. It is filled and green exactly when the container runs. |
| ContainersTree.PortLabel | src/providers/ContainersTreeViewProvider.ts:72 | Defined as the URL, `:`, the published port, ` -> `, the target port, `/` and the protocol. Its facts are in `ContainersTree.PortLabelUrl` and `ContainersTree.PortItem`. |
| ContainersTree.PortLabelUrl | src/providers/ContainersTreeViewProvider.ts:72 | Every port label starts with the URL and a colon. When the URL has no colon of its own, the label's text before its first colon is the URL. |
| ContainersTree.PortItem | src/providers/ContainersTreeViewProvider.ts:68-75 | A port item is a leaf with the plug icon. |
| ContainersTree.GetTreeItem | src/providers/ContainersTreeViewProvider.ts:49-51 | Each node becomes its own item. |
| ContainersTree.GetChildren | src/providers/ContainersTreeViewProvider.ts:18-28 | A container's children are its ports, in order. The root's children are the fetched containers, in order. |
| ArtisanRoute.ListEffects | src/commands/artisan/Route.ts:18-20 | Defined as `execArtisanCmd` of `route:list -v --json`, followed by `showError` of the route-list message when the command fails. Its facts are in `ArtisanRoute.ListEffectsFacts`. |
| ArtisanRoute.ListEffectsFacts | src/commands/artisan/Route.ts:18-20 | A listing runs `sail artisan route:list -v --json` in the first folder with the 200 KiB buffer. The error message, with the console hint and the logged process error, is shown exactly when the command fails. |
| ArtisanRoute.FlattenRows | src/commands/artisan/Route.ts:43-52 | One row per record, each holding the record's values in key order, with null written as `-`. |
| ArtisanRoute.HeaderCellsAppend | src/commands/artisan/Route.ts:204-206 | Header cells of a concatenation are the concatenated cells. |
| ArtisanRoute.RowsHtmlAppend | src/commands/artisan/Route.ts:214-220 | Row markup of a concatenation is the concatenated markup. |
| ArtisanRoute.HeaderCellsLength | src/commands/artisan/Route.ts:204-206 | The header markup is nine characters per header plus the total length of the header texts. |
| ArtisanRoute.DrawHeaders | src/commands/artisan/Route.ts:202-210 | One `<tr>` around a `<th>` per header, in order. |
| ArtisanRoute.DrawRow | src/commands/artisan/Route.ts:215-219 | One `<tr>` around a `<td>` per item, in order. |
| ArtisanRoute.DrawRows | src/commands/artisan/Route.ts:212-223 | One row's markup after another, and empty for no rows. |
| ArtisanRoute.Route.constructor | src/commands/artisan/Route.ts:5-9 | No table, no panel, no interval, and the flag off. |
| ArtisanRoute.Route.ParseJson | src/commands/artisan/Route.ts:36-55 | Succeeds exactly on a non-empty list. The headers are the first record's keys and the rows are flattened. Otherwise it throws and leaves the table. |
| ArtisanRoute.Route.OpenVirtualHtmlFile | src/commands/artisan/Route.ts:97-121 | Reveals the current panel, or creates a new one when there is none. |
| ArtisanRoute.Route.Ping | src/commands/artisan/Route.ts:225-243 | Arms an interval on the current panel exactly when there is a panel and the flag is off. It leaves the flag alone. |
| ArtisanRoute.Route.Tick | src/commands/artisan/Route.ts:229-241 | A tick runs the listing command and shows the error message on an error. When the list comes back and parses non-empty the table is the new one; otherwise the table is kept. It sets the flag. |
| ArtisanRoute.Route.DisposePanel | src/commands/artisan/Route.ts:111-117 | Clears only the last interval armed, resets the flag and forgets the panel. |
| ArtisanRoute.Route.Run | src/commands/artisan/Route.ts:11-34 | It runs the listing command and shows the error message on an error. The progress ends exactly when the list comes back and parses non-empty. Then the table is the new one and there is a panel: an existing one is revealed, not re-rendered, and otherwise one is created. An interval is armed unless the flag is on. On failure the table, the panel and the intervals are unchanged. |
| ArtisanRoute.TimerLeak | src/commands/artisan/Route.ts:225-243 | Two runs inside one period and a close leave one interval ticking, and the next panel is never refreshed. |
| ArtisanRoute.RunTwiceThenClose | src/commands/artisan/Route.ts:111-117 | Two runs and a close leave the first interval live, on the first panel, with no panel open. |
| ArtisanRoute.TickThenReopen | src/commands/artisan/Route.ts:225-241 | After that, a tick of the leaked interval and a new run give the new panel no interval. |
| ArtisanRoute.GuardedRoute.Ping | src/commands/artisan/Route.ts:225-243 | With the flag set when arming, a panel always has exactly one interval, which refreshes it. |
| ArtisanRoute.GuardedRoute.Tick | src/commands/artisan/Route.ts:229-238 | As `Route.Tick`, without touching the flag. |
| ArtisanRoute.GuardedRoute.DisposePanel | src/commands/artisan/Route.ts:111-117 | Closing clears every interval. |
| ArtisanRoute.GuardedRoute.Run | src/commands/artisan/Route.ts:11-34 | It runs the listing command. A successful run leaves exactly one interval, on the current panel. A failed one leaves the table, the panel and the intervals. |
| ArtisanRoute.GuardedNoLeak | src/commands/artisan/Route.ts:225-243 | The same scenario as `TimerLeak` leaks nothing, and the next panel is refreshed. |

## Left out

- Timers are events the caller delivers, not a clock:
  - `setInterval` in src/commands/artisan/Route.ts is modelled by `Tick` calls on a live interval.
  - The tree's ten-second refresh in src/providers/ContainersTreeViewProvider.ts:12-16 only fires a change event, and is not modelled.
- `getNonce` and the `idRandomizer` of `executeAsTask` use `Math.random`. The nonce is left out, and the randomiser is a flag on the task.
- The HTML, CSS and scripts of the webviews are left out, and so is the `toUpperCase` of the status:
  - The pages are an enumeration.
  - The status page is its colour, icon, badge and button list.
  - The route table is modelled down to its `<tr>`/`<th>`/`<td>` markup.
- The route panel's in-page filter and link handling run in the browser and are not modelled.
- src/utils/Output.ts is not part of this model. Its calls are effects in the trace of `Common.RunPrefixed`.
- src/extension.ts is not part of this model:
  - The container list and whether Docker runs are inputs of the dashboard.
  - Registering the providers and commands (src/registerCommands.ts), Serve, Share and the event bus are not modelled. A status event is an effect.
- The unit tests also name `up`, `down`, `open`, `restart`, `shell`, `bash` and `tinker` commands that src/commands/Sail.ts does not define. Only the defined commands are modelled.
- The JSON parser is a parameter, so what JSON accepts is not modelled:
  - A route value is either null or the text it is shown as.
  - A `ps` record with no status throws, as `Status.includes` would.
- `executeAsTask` can miss an end event that arrives before its listener is registered. The model registers the listener before any event, and the race is not modelled.
- ExecuteAsTask.Verdict treats the exit code as an integer. `NaN` and other non-integer codes are not modelled.
- A failed `run()` of the route list shows an error and never ends its progress notification, and neither does a list that does not parse. `Route.Run` models this in its `progressEnded` result but does not report it as a finding.
- SailCommands.Sail.Ps: its ensures covers only a failing command. The success case is stated about `ParsePs` by `PsSucceedsIff` and `PsOneRecordPerLine`.
- SailCommands.ParsePs: its own ensures covers only the error case. The lemmas above state the rest.
- ArtisanRoute.Route.Run: the panel's HTML is not modelled. A panel that already exists is revealed and keeps its old HTML until a tick of an interval re-renders it, and the model does not track which table a panel shows.
- A throw from the sidebar's handler ends it, and the rejected promise is ignored by the editor. The model reports the throw as `threw` and does not model the editor's handling of it.
- Asynchrony is sequential: each handler runs to completion with its awaited results given as inputs. Interleavings of concurrent messages are not modelled.

## Findings

| source | as written | input that shows it | evidently intended | confidence | as-written member | corrected member |
|---|---|---|---|---|---|---|
| src/providers/DashboardWebViewProvider.ts:92-118 | The dashboard passes `green`/`yellow`/`red`, but src/providers/HtmlProvider.ts:107-108 and 147 test for `working`/`warning`/`stopped`. So the status page is always red with an error icon, and with a compose file it always shows the running buttons. | Docker running, Sail installed, `docker-compose.yml` present, one container in state `exited`: no Up button | The status words the page tests for, so colour and buttons follow the containers | not executed | Dashboard.DashboardStatusDrift | Dashboard.IntendedStatusViewTracksContainers |
| src/commands/artisan/Route.ts:225-243 | `ping` sets `intervalOn` only inside the interval callback. Two runs within five seconds each arm an interval, and closing the panel clears only the last one. The leaked interval then sets the flag with no panel, so no later panel gets a refresh interval. | Run the route list twice within five seconds, close the panel, wait for a tick, run it again | Set the flag when arming, so at most one interval lives and closing clears it | not executed | ArtisanRoute.TimerLeak | ArtisanRoute.GuardedNoLeak |
