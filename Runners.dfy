/**
 * The three language runners: for each language, the command that builds a
 * project, the command that runs its tests and the command that starts a
 * program at a given entry point. Every command is an argument vector.
 */
module Runners {
  import opened Base
  import opened Strings
  import opened Models

  datatype Runner = KotlinRunner | JavaRunner | PythonRunner

  function LanguageOf(runner: Runner): Language
  {
    match runner
    case KotlinRunner => KOTLIN
    case JavaRunner => JAVA
    case PythonRunner => PYTHON
  }

  /** The runner registered for a language. */
  function RunnerFor(language: Language): Runner
  {
    match language
    case KOTLIN => KotlinRunner
    case JAVA => JavaRunner
    case PYTHON => PythonRunner
  }

  const GradleBuild: string := "chmod +x gradlew && ./gradlew build --no-daemon"
  const GradleTest: string := "chmod +x gradlew && ./gradlew test --no-daemon"
  const KotlinRunPrefix: string := "chmod +x gradlew && ./gradlew run --no-daemon -PmainClass="
  const JavaRunPrefix: string := "chmod +x gradlew && ./gradlew run --args='"
  const PytestCommand: string := "pytest --junitxml=test-results.xml"

  /** A script handed to `sh -c`. */
  function Shell(script: string): seq<string>
  {
    ["sh", "-c", script]
  }

  function BuildCommand(runner: Runner): seq<string>
  {
    match runner
    case KotlinRunner => Shell(GradleBuild)
    case JavaRunner => Shell(GradleBuild)
    case PythonRunner => []
  }

  function TestCommand(runner: Runner): seq<string>
  {
    match runner
    case KotlinRunner => Shell(GradleTest)
    case JavaRunner => Shell(GradleTest)
    case PythonRunner => Shell(PytestCommand)
  }

  /** The entry point is pasted into the command text without quoting or escaping. */
  function RunCommand(runner: Runner, mainClass: string): seq<string>
  {
    match runner
    case KotlinRunner => Shell(KotlinRunPrefix + mainClass)
    case JavaRunner => Shell(JavaRunPrefix + mainClass + "'")
    case PythonRunner => ["python", mainClass]
  }

  /** Reads the entry point back out of a run command, if it has the runner's shape. */
  function MainClassOf(runner: Runner, command: seq<string>): Option<string>
  {
    match runner
    case KotlinRunner =>
      if |command| == 3 && command[..2] == ["sh", "-c"] && StartsWith(command[2], KotlinRunPrefix)
      then Some(command[2][|KotlinRunPrefix|..])
      else None
    case JavaRunner =>
      if |command| == 3 && command[..2] == ["sh", "-c"] && |command[2]| > |JavaRunPrefix|
         && StartsWith(command[2], JavaRunPrefix) && command[2][|command[2]| - 1] == '\''
      then Some(command[2][|JavaRunPrefix|..|command[2]| - 1])
      else None
    case PythonRunner =>
      if |command| == 2 && command[0] == "python" then Some(command[1]) else None
  }

  /** The entry point can be read back from every run command. */
  lemma MainClassRoundTrip(runner: Runner, mainClass: string)
    ensures MainClassOf(runner, RunCommand(runner, mainClass)) == Some(mainClass)
  {
    var command := RunCommand(runner, mainClass);
    match runner
    case KotlinRunner =>
      assert command[2][..|KotlinRunPrefix|] == KotlinRunPrefix;
      assert command[2][|KotlinRunPrefix|..] == mainClass;
    case JavaRunner =>
      var text := JavaRunPrefix + mainClass + "'";
      assert command[2] == text;
      assert text[..|JavaRunPrefix|] == JavaRunPrefix;
      assert text[|JavaRunPrefix|..|text| - 1] == mainClass;
    case PythonRunner =>
  }

  /** Different entry points give different run commands. */
  lemma RunCommandInjective(runner: Runner, m1: string, m2: string)
    requires RunCommand(runner, m1) == RunCommand(runner, m2)
    ensures m1 == m2
  {
    MainClassRoundTrip(runner, m1);
    MainClassRoundTrip(runner, m2);
  }

  /** The Kotlin and Java runners share their build and test commands, not their run commands. */
  lemma JvmRunnersShareBuildAndTest(mainClass: string)
    ensures BuildCommand(JavaRunner) == BuildCommand(KotlinRunner)
    ensures TestCommand(JavaRunner) == TestCommand(KotlinRunner)
    ensures RunCommand(JavaRunner, mainClass) != RunCommand(KotlinRunner, mainClass)
  {
    var k := KotlinRunPrefix + mainClass;
    var j := JavaRunPrefix + mainClass + "'";
    assert k[36] == 'n' && j[36] == 'a';
  }
}
