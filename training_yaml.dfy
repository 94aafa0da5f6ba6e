/** The fine-tuning configuration generator (finetune-tts/create_training_yaml.py):
    required hyperparameters, defaults and their overrides, the iteration count,
    and the `${name}` placeholder substitution into the template. The text that
    would be written to train.yaml is returned instead. */
module TrainingYaml {
  import opened Values
  import opened Strs

  /** `math.ceil` on a real. */
  function Ceil(x: real): int {
    -((-x).Floor)
  }

  /** `Ceil(x)` is the least integer at or above `x`. */
  lemma CeilBounds(x: real)
    ensures Ceil(x) as real - 1.0 < x <= Ceil(x) as real
  {
  }

  /** The one integer `q` with `q - 1 < x <= q` is `Ceil(x)`. */
  lemma CeilUnique(x: real, q: int)
    requires q as real - 1.0 < x <= q as real
    ensures Ceil(x) == q
  {
  }

  /** A number as Python arithmetic sees it: booleans are 0 and 1. */
  function Numeric(v: Value): Option<real> {
    match v
    case Bool(b) => Some(if b then 1.0 else 0.0)
    case Int(i) => Some(i as real)
    case Num(x, _) => Some(x)
    case _ => None
  }

  /** `calc_iterations(epochs, lines, batch_size)`:
      `int(math.ceil(epochs * math.ceil(lines / batch_size)))`, in exact
      arithmetic. `lines / batch_size` is evaluated first. */
  function CalcIterations(epochs: Value, lines: nat, batchSize: Value): (r: Result<int>)
    ensures r.Ok? <==> Numeric(batchSize).Some? && Numeric(batchSize).value != 0.0 && Numeric(epochs).Some?
    ensures Numeric(batchSize) == Some(0.0) ==> r == Raise(ZeroDivisionError)
  {
    match Numeric(batchSize)
    case None => Raise(TypeError)
    case Some(b) =>
      if b == 0.0 then Raise(ZeroDivisionError)
      else
        var steps := Ceil(lines as real / b);
        match Numeric(epochs)
        case None => Raise(TypeError)
        case Some(e) => Ok(Ceil(e * steps as real))
  }

  /** Integer division rounded up. */
  function CeilDiv(a: nat, b: nat): nat
    requires b > 0
  {
    (a + b - 1) / b
  }

  /** Bounds on a product bound a quotient by a positive divisor. */
  lemma QuotientBounds(a: real, b: real, lo: real, hi: real)
    requires b > 0.0 && lo * b < a <= hi * b
    ensures lo < a / b <= hi
  {
    assert (a / b) * b == a;
  }

  lemma IntProduct(a: int, b: int)
    ensures (a * b) as real == a as real * b as real
  {
  }

  /** `CeilDiv(a, b)` batches of `b` cover `a`, one fewer do not. */
  lemma CeilDivBounds(a: nat, b: nat)
    requires b > 0
    ensures (CeilDiv(a, b) - 1) * b < a <= CeilDiv(a, b) * b
  {
    var q := CeilDiv(a, b);
    var m := (a + b - 1) % b;
    assert a + b - 1 == q * b + m && 0 <= m < b;
    assert (q - 1) * b == q * b - b;
  }

  /** `lines / batch_size` rounded up, for a positive integer batch size. */
  lemma CeilOfQuotient(a: nat, b: nat)
    requires b > 0
    ensures Ceil(a as real / b as real) == CeilDiv(a, b)
  {
    var q: int := CeilDiv(a, b);
    CeilDivBounds(a, b);
    IntProduct(q - 1, b);
    IntProduct(q, b);
    assert (q - 1) as real == q as real - 1.0;
    QuotientBounds(a as real, b as real, q as real - 1.0, q as real);
    CeilUnique(a as real / b as real, q);
  }

  /** For whole-number epochs and a positive integer batch size the count is
      epochs times the number of batches per epoch. */
  lemma CalcIterationsWhole(epochs: nat, lines: nat, batchSize: nat)
    requires batchSize > 0
    ensures CalcIterations(Int(epochs), lines, Int(batchSize)) == Ok(epochs * CeilDiv(lines, batchSize))
  {
    var steps := CeilDiv(lines, batchSize);
    CeilOfQuotient(lines, batchSize);
    CalcIterationsOfSteps(epochs, lines, batchSize, steps);
    IntProduct(epochs, steps);
    CeilUnique((epochs * steps) as real, epochs * steps);
  }

  /** The count once the batches per epoch are known. */
  lemma CalcIterationsOfSteps(epochs: nat, lines: nat, batchSize: nat, steps: int)
    requires batchSize > 0 && Ceil(lines as real / batchSize as real) == steps
    ensures CalcIterations(Int(epochs), lines, Int(batchSize)) == Ok(Ceil(epochs as real * steps as real))
  {
  }

  /** `str(v)` for a decoded JSON value. Lists and dictionaries are not rendered
      (see the README). */
  function Render(v: Value): string {
    match v
    case Null => "None"
    case Bool(b) => if b then "True" else "False"
    case Int(i) => IntToString(i)
    case Num(_, text) => text
    case Str(s) => s
    case _ => ""
  }

  /** The value an optional hyperparameter ends up with: the given one, or the
      default `process` assigns before its overrides. */
  function Setting(hyperparams: map<string, Value>, name: string, default: Value): (r: Value)
    ensures name in hyperparams ==> r == hyperparams[name]
    ensures name !in hyperparams ==> r == default
  {
    if name in hyperparams then hyperparams[name] else default
  }

  /** The optional settings of `process`, each as the value it is rendered from. */
  datatype Settings = Settings(
    tokenizerJson: Value,
    validationBatchSize: Value,
    optimizer: Value,
    validationRate: Value,
    learningRateScheme: Value,
    validationEnabled: Value,
    saveRate: Value,
    melLrWeight: Value,
    textLrWeight: Value,
    gradientAccumulationSize: Value,
    halfP: Value,
    bitsandbytes: Value,
    workers: Value,
    gpus: Value,
    voice: Value)

  /** The defaults `process` assigns before looking at the hyperparameters. */
  const Defaults := Settings(
    Str("./modules/tortoise-tts/tortoise/data/tokenizer.json"),
    Int(8),
    Str("adamw"),
    Int(5),
    Str("Multistep"),
    Str("false"),
    Int(5),
    Int(1),
    Num(0.01, "0.01"),
    Int(16),
    Str("false"),
    Str("true"),
    Int(2),
    Int(1),
    Str("voice_default"))

  /** The settings after the overrides: each given hyperparameter replaces its
      default. */
  function Resolved(hyperparams: map<string, Value>): Settings {
    Settings(
      Setting(hyperparams, "tokenizer_json", Defaults.tokenizerJson),
      Setting(hyperparams, "validation_batch_size", Defaults.validationBatchSize),
      Setting(hyperparams, "optimizer", Defaults.optimizer),
      Setting(hyperparams, "validation_rate", Defaults.validationRate),
      Setting(hyperparams, "learning_rate_scheme", Defaults.learningRateScheme),
      Setting(hyperparams, "validation_enabled", Defaults.validationEnabled),
      Setting(hyperparams, "save_rate", Defaults.saveRate),
      Setting(hyperparams, "mel_lr_weight", Defaults.melLrWeight),
      Setting(hyperparams, "text_lr_weight", Defaults.textLrWeight),
      Setting(hyperparams, "gradient_accumulation_size", Defaults.gradientAccumulationSize),
      Setting(hyperparams, "half_p", Defaults.halfP),
      Setting(hyperparams, "bitsandbytes", Defaults.bitsandbytes),
      Setting(hyperparams, "workers", Defaults.workers),
      Setting(hyperparams, "gpus", Defaults.gpus),
      Setting(hyperparams, "voice", Defaults.voice))
  }

  /** A placeholder searched for by `replace`. */
  type Pattern = s: string | |s| > 0 witness "$"

  /** The template's placeholder for a setting: `${name}`. */
  function Placeholder(name: string): Pattern {
    "${" + name + "}"
  }

  /** A chain of `replace` calls: each placeholder with the text it becomes. */
  datatype Chain = Done | Step(pattern: Pattern, value: string, next: Chain)

  /** The chain as a list of (placeholder, value) pairs. */
  function Pairs(c: Chain): (r: seq<(string, string)>)
    ensures c.Step? ==> r != [] && r[0] == (c.pattern, c.value) && r[1..] == Pairs(c.next)
  {
    match c
    case Done => []
    case Step(p, v, next) => [(p, v)] + Pairs(next)
  }

  /** The replacements, in the order `process` performs them: each placeholder
      with the `str()` of its value. "${workers}" and "${mel_lr_weight}" are
      replaced twice. */
  function ChainOf(iterations: int, batchSize: Value, learningRate: Value, settings: Settings): Chain
  {
    Step(Placeholder("iterations"), IntToString(iterations),
    Step(Placeholder("voice"), Render(settings.voice),
    Step(Placeholder("half_p"), Render(settings.halfP),
    Step(Placeholder("bitsandbytes"), Render(settings.bitsandbytes),
    Step(Placeholder("gpus"), Render(settings.gpus),
    Step(Placeholder("workers"), Render(settings.workers),
    Step(Placeholder("batch_size"), Render(batchSize),
    Step(Placeholder("tokenizer_json"), Render(settings.tokenizerJson),
    Step(Placeholder("workers"), Render(settings.workers),
    Step(Placeholder("validation_batch_size"), Render(settings.validationBatchSize),
    Step(Placeholder("optimizer"), Render(settings.optimizer),
    Step(Placeholder("learning_rate"), Render(learningRate),
    Step(Placeholder("text_lr_weight"), Render(settings.textLrWeight),
    Step(Placeholder("mel_lr_weight"), Render(settings.melLrWeight),
    Step(Placeholder("mel_lr_weight"), Render(settings.melLrWeight),
    Step(Placeholder("gradient_accumulation_size"), Render(settings.gradientAccumulationSize),
    Step(Placeholder("validation_rate"), Render(settings.validationRate),
    Step(Placeholder("learning_rate_scheme"), Render(settings.learningRateScheme),
    Step(Placeholder("validation_enabled"), Render(settings.validationEnabled),
    Step(Placeholder("save_rate"), Render(settings.saveRate),
    Done))))))))))))))))))))
  }

  /** The replacements of `process` for the given hyperparameters. */
  function Replacements(hyperparams: map<string, Value>, iterations: int): Chain
    requires "batch_size" in hyperparams && "learning_rate" in hyperparams
  {
    ChainOf(iterations, hyperparams["batch_size"], hyperparams["learning_rate"], Resolved(hyperparams))
  }

  /** The replacements applied one after another, first to last. */
  function Substitute(text: string, c: Chain): string
    decreases c
  {
    match c
    case Done => text
    case Step(p, v, next) => Substitute(Replace(text, p, v), next)
  }

  /** Each step replaces every occurrence of its placeholder: the text between
      occurrences is kept and the occurrences become the value. */
  lemma SubstituteStep(text: string, c: Chain)
    requires c.Step?
    ensures Substitute(text, c) == Substitute(Join(Split(text, c.pattern), c.value), c.next)
  {
    ReplaceIsJoinSplit(text, c.pattern, c.value);
  }

  /** The first `replace` of a chain, then the rest. */
  lemma SubstituteNext(text: string, c: Chain)
    requires c.Step?
    ensures Substitute(text, c) == Substitute(Replace(text, c.pattern, c.value), c.next)
  {
  }

  /** Text holding none of the placeholders comes back unchanged. */
  lemma {:induction false} SubstituteUntouched(text: string, c: Chain)
    requires forall i :: 0 <= i < |Pairs(c)| ==> |Pairs(c)[i].0| > 0 && !Contains(text, Pairs(c)[i].0)
    ensures Substitute(text, c) == text
    decreases c
  {
    if c.Step? {
      assert Pairs(c)[0] == (c.pattern, c.value);
      ReplaceAbsent(text, c.pattern, c.value);
      forall i | 0 <= i < |Pairs(c.next)|
        ensures |Pairs(c.next)[i].0| > 0 && !Contains(text, Pairs(c.next)[i].0)
      {
        assert Pairs(c.next)[i] == Pairs(c)[i + 1];
      }
      SubstituteUntouched(text, c.next);
    }
  }

  /** What `process` produces: the first missing required key raises, in the
      order epochs, batch_size, learning_rate; otherwise the iteration count is
      computed and the template filled in. */
  function ProcessSpec(numLines: nat, hyperparams: map<string, Value>, templateYaml: string): Result<string>
  {
    if "epochs" !in hyperparams then Raise(Raised("epoch is a required hyperparameter"))
    else if "batch_size" !in hyperparams then Raise(Raised("batch_size is a required hyperparameter"))
    else if "learning_rate" !in hyperparams then Raise(Raised("learning_rate is a required hyperparameter"))
    else
      var iterations :- CalcIterations(hyperparams["epochs"], numLines, hyperparams["batch_size"]);
      Ok(Substitute(templateYaml, Replacements(hyperparams, iterations)))
  }

  /** The required keys are checked in order, and only they can stop `process`
      before the iteration count: with all three present it fails exactly when
      the count does. */
  lemma RequiredKeys(numLines: nat, hyperparams: map<string, Value>, templateYaml: string)
    ensures ProcessSpec(numLines, hyperparams, templateYaml).Raise? && "epochs" in hyperparams
        && "batch_size" in hyperparams && "learning_rate" in hyperparams
      ==> CalcIterations(hyperparams["epochs"], numLines, hyperparams["batch_size"]).Raise?
    ensures "epochs" !in hyperparams ==>
      ProcessSpec(numLines, hyperparams, templateYaml) == Raise(Raised("epoch is a required hyperparameter"))
    ensures "epochs" in hyperparams && "batch_size" !in hyperparams ==>
      ProcessSpec(numLines, hyperparams, templateYaml) == Raise(Raised("batch_size is a required hyperparameter"))
    ensures "epochs" in hyperparams && "batch_size" in hyperparams && "learning_rate" !in hyperparams ==>
      ProcessSpec(numLines, hyperparams, templateYaml) == Raise(Raised("learning_rate is a required hyperparameter"))
  {
  }

  /** The hyperparameters `process` looks for besides the three required ones. */
  const OptionalKeys: set<string> := {
    "tokenizer_json", "validation_batch_size", "optimizer", "validation_rate", "learning_rate_scheme",
    "validation_enabled", "save_rate", "mel_lr_weight", "text_lr_weight", "gradient_accumulation_size",
    "half_p", "bitsandbytes", "workers", "gpus", "voice"}

  /** An optional hyperparameter overrides its default exactly when given: the
      validation batch size renders as 8 and the gradient accumulation size as 16
      unless the hyperparameters say otherwise, and without any optional key
      every setting is its default. */
  lemma DefaultsUnlessGiven(hyperparams: map<string, Value>)
    ensures Render(Resolved(hyperparams).validationBatchSize) ==
      if "validation_batch_size" in hyperparams then Render(hyperparams["validation_batch_size"]) else "8"
    ensures Render(Resolved(hyperparams).gradientAccumulationSize) ==
      if "gradient_accumulation_size" in hyperparams then Render(hyperparams["gradient_accumulation_size"]) else "16"
    ensures Render(Resolved(hyperparams).voice) ==
      if "voice" in hyperparams then Render(hyperparams["voice"]) else "voice_default"
    ensures Render(Resolved(hyperparams).textLrWeight) ==
      if "text_lr_weight" in hyperparams then Render(hyperparams["text_lr_weight"]) else "0.01"
    ensures (forall k :: k in hyperparams ==> k !in OptionalKeys) ==> Resolved(hyperparams) == Defaults
  {
    assert IntToString(8) == "8";
    assert IntToString(16) == "16" by {
      assert NatToString(16) == NatToString(1) + [DigitChar(6)];
    }
  }

  /** The settings the chain has a placeholder for. */
  const PlaceholderNames: set<string> := {
    "iterations", "voice", "half_p", "bitsandbytes", "gpus", "workers", "batch_size", "tokenizer_json",
    "validation_batch_size", "optimizer", "learning_rate", "text_lr_weight", "mel_lr_weight",
    "gradient_accumulation_size", "validation_rate", "learning_rate_scheme", "validation_enabled", "save_rate"}

  /** The text holds none of the chain's placeholders. */
  predicate NoPlaceholders(text: string) {
    forall name :: name in PlaceholderNames ==> !Contains(text, Placeholder(name))
  }

  /** The chain of `replace` calls at the end of `process`. */
  method FillTemplate(templateYaml: string, iterations: int, batchSize: Value, learningRate: Value, settings: Settings)
    returns (text: string)
    ensures text == Substitute(templateYaml, ChainOf(iterations, batchSize, learningRate, settings))
    ensures NoPlaceholders(templateYaml) ==> text == templateYaml
  {
    ghost var rest := ChainOf(iterations, batchSize, learningRate, settings);
    ghost var goal := Substitute(templateYaml, rest);
    text := templateYaml;
    assert goal == Substitute(text, rest);
    assert rest.pattern == Placeholder("iterations") && rest.value == IntToString(iterations);
    SubstituteNext(text, rest);
    if NoPlaceholders(templateYaml) {
      assert "iterations" in PlaceholderNames;
      ReplaceAbsent(text, Placeholder("iterations"), IntToString(iterations));
    }
    text := Replace(text, Placeholder("iterations"), IntToString(iterations));
    rest := rest.next;
    assert rest.pattern == Placeholder("voice") && rest.value == Render(settings.voice);
    SubstituteNext(text, rest);
    if NoPlaceholders(templateYaml) {
      assert "voice" in PlaceholderNames;
      ReplaceAbsent(text, Placeholder("voice"), Render(settings.voice));
    }
    text := Replace(text, Placeholder("voice"), Render(settings.voice));
    rest := rest.next;
    assert rest.pattern == Placeholder("half_p") && rest.value == Render(settings.halfP);
    SubstituteNext(text, rest);
    if NoPlaceholders(templateYaml) {
      assert "half_p" in PlaceholderNames;
      ReplaceAbsent(text, Placeholder("half_p"), Render(settings.halfP));
    }
    text := Replace(text, Placeholder("half_p"), Render(settings.halfP));
    rest := rest.next;
    assert rest.pattern == Placeholder("bitsandbytes") && rest.value == Render(settings.bitsandbytes);
    SubstituteNext(text, rest);
    if NoPlaceholders(templateYaml) {
      assert "bitsandbytes" in PlaceholderNames;
      ReplaceAbsent(text, Placeholder("bitsandbytes"), Render(settings.bitsandbytes));
    }
    text := Replace(text, Placeholder("bitsandbytes"), Render(settings.bitsandbytes));
    rest := rest.next;
    assert rest.pattern == Placeholder("gpus") && rest.value == Render(settings.gpus);
    SubstituteNext(text, rest);
    if NoPlaceholders(templateYaml) {
      assert "gpus" in PlaceholderNames;
      ReplaceAbsent(text, Placeholder("gpus"), Render(settings.gpus));
    }
    text := Replace(text, Placeholder("gpus"), Render(settings.gpus));
    rest := rest.next;
    assert rest.pattern == Placeholder("workers") && rest.value == Render(settings.workers);
    SubstituteNext(text, rest);
    if NoPlaceholders(templateYaml) {
      assert "workers" in PlaceholderNames;
      ReplaceAbsent(text, Placeholder("workers"), Render(settings.workers));
    }
    text := Replace(text, Placeholder("workers"), Render(settings.workers));
    rest := rest.next;
    assert rest.pattern == Placeholder("batch_size") && rest.value == Render(batchSize);
    SubstituteNext(text, rest);
    if NoPlaceholders(templateYaml) {
      assert "batch_size" in PlaceholderNames;
      ReplaceAbsent(text, Placeholder("batch_size"), Render(batchSize));
    }
    text := Replace(text, Placeholder("batch_size"), Render(batchSize));
    rest := rest.next;
    assert rest.pattern == Placeholder("tokenizer_json") && rest.value == Render(settings.tokenizerJson);
    SubstituteNext(text, rest);
    if NoPlaceholders(templateYaml) {
      assert "tokenizer_json" in PlaceholderNames;
      ReplaceAbsent(text, Placeholder("tokenizer_json"), Render(settings.tokenizerJson));
    }
    text := Replace(text, Placeholder("tokenizer_json"), Render(settings.tokenizerJson));
    rest := rest.next;
    assert rest.pattern == Placeholder("workers") && rest.value == Render(settings.workers);
    SubstituteNext(text, rest);
    if NoPlaceholders(templateYaml) {
      assert "workers" in PlaceholderNames;
      ReplaceAbsent(text, Placeholder("workers"), Render(settings.workers));
    }
    text := Replace(text, Placeholder("workers"), Render(settings.workers));
    rest := rest.next;
    assert rest.pattern == Placeholder("validation_batch_size") && rest.value == Render(settings.validationBatchSize);
    SubstituteNext(text, rest);
    if NoPlaceholders(templateYaml) {
      assert "validation_batch_size" in PlaceholderNames;
      ReplaceAbsent(text, Placeholder("validation_batch_size"), Render(settings.validationBatchSize));
    }
    text := Replace(text, Placeholder("validation_batch_size"), Render(settings.validationBatchSize));
    rest := rest.next;
    assert rest.pattern == Placeholder("optimizer") && rest.value == Render(settings.optimizer);
    SubstituteNext(text, rest);
    if NoPlaceholders(templateYaml) {
      assert "optimizer" in PlaceholderNames;
      ReplaceAbsent(text, Placeholder("optimizer"), Render(settings.optimizer));
    }
    text := Replace(text, Placeholder("optimizer"), Render(settings.optimizer));
    rest := rest.next;
    assert rest.pattern == Placeholder("learning_rate") && rest.value == Render(learningRate);
    SubstituteNext(text, rest);
    if NoPlaceholders(templateYaml) {
      assert "learning_rate" in PlaceholderNames;
      ReplaceAbsent(text, Placeholder("learning_rate"), Render(learningRate));
    }
    text := Replace(text, Placeholder("learning_rate"), Render(learningRate));
    rest := rest.next;
    assert rest.pattern == Placeholder("text_lr_weight") && rest.value == Render(settings.textLrWeight);
    SubstituteNext(text, rest);
    if NoPlaceholders(templateYaml) {
      assert "text_lr_weight" in PlaceholderNames;
      ReplaceAbsent(text, Placeholder("text_lr_weight"), Render(settings.textLrWeight));
    }
    text := Replace(text, Placeholder("text_lr_weight"), Render(settings.textLrWeight));
    rest := rest.next;
    assert rest.pattern == Placeholder("mel_lr_weight") && rest.value == Render(settings.melLrWeight);
    SubstituteNext(text, rest);
    if NoPlaceholders(templateYaml) {
      assert "mel_lr_weight" in PlaceholderNames;
      ReplaceAbsent(text, Placeholder("mel_lr_weight"), Render(settings.melLrWeight));
    }
    text := Replace(text, Placeholder("mel_lr_weight"), Render(settings.melLrWeight));
    rest := rest.next;
    assert rest.pattern == Placeholder("mel_lr_weight") && rest.value == Render(settings.melLrWeight);
    SubstituteNext(text, rest);
    if NoPlaceholders(templateYaml) {
      assert "mel_lr_weight" in PlaceholderNames;
      ReplaceAbsent(text, Placeholder("mel_lr_weight"), Render(settings.melLrWeight));
    }
    text := Replace(text, Placeholder("mel_lr_weight"), Render(settings.melLrWeight));
    rest := rest.next;
    assert rest.pattern == Placeholder("gradient_accumulation_size") && rest.value == Render(settings.gradientAccumulationSize);
    SubstituteNext(text, rest);
    if NoPlaceholders(templateYaml) {
      assert "gradient_accumulation_size" in PlaceholderNames;
      ReplaceAbsent(text, Placeholder("gradient_accumulation_size"), Render(settings.gradientAccumulationSize));
    }
    text := Replace(text, Placeholder("gradient_accumulation_size"), Render(settings.gradientAccumulationSize));
    rest := rest.next;
    assert rest.pattern == Placeholder("validation_rate") && rest.value == Render(settings.validationRate);
    SubstituteNext(text, rest);
    if NoPlaceholders(templateYaml) {
      assert "validation_rate" in PlaceholderNames;
      ReplaceAbsent(text, Placeholder("validation_rate"), Render(settings.validationRate));
    }
    text := Replace(text, Placeholder("validation_rate"), Render(settings.validationRate));
    rest := rest.next;
    assert rest.pattern == Placeholder("learning_rate_scheme") && rest.value == Render(settings.learningRateScheme);
    SubstituteNext(text, rest);
    if NoPlaceholders(templateYaml) {
      assert "learning_rate_scheme" in PlaceholderNames;
      ReplaceAbsent(text, Placeholder("learning_rate_scheme"), Render(settings.learningRateScheme));
    }
    text := Replace(text, Placeholder("learning_rate_scheme"), Render(settings.learningRateScheme));
    rest := rest.next;
    assert rest.pattern == Placeholder("validation_enabled") && rest.value == Render(settings.validationEnabled);
    SubstituteNext(text, rest);
    if NoPlaceholders(templateYaml) {
      assert "validation_enabled" in PlaceholderNames;
      ReplaceAbsent(text, Placeholder("validation_enabled"), Render(settings.validationEnabled));
    }
    text := Replace(text, Placeholder("validation_enabled"), Render(settings.validationEnabled));
    rest := rest.next;
    assert rest.pattern == Placeholder("save_rate") && rest.value == Render(settings.saveRate);
    SubstituteNext(text, rest);
    if NoPlaceholders(templateYaml) {
      assert "save_rate" in PlaceholderNames;
      ReplaceAbsent(text, Placeholder("save_rate"), Render(settings.saveRate));
    }
    text := Replace(text, Placeholder("save_rate"), Render(settings.saveRate));
    rest := rest.next;
    assert rest == Done;
  }

  /** `if name in hyperparams: variable = hyperparams[name]`. */
  method Override(hyperparams: map<string, Value>, name: string, current: Value) returns (v: Value)
    ensures v == Setting(hyperparams, name, current)
  {
    v := current;
    if name in hyperparams {
      v := hyperparams[name];
    }
  }

  /** The defaults of `process` and their overrides, one `if` at a time; a
      given hyperparameter replaces its default, "save_rate" and
      "validation_enabled" twice over. */
  method Overrides(hyperparams: map<string, Value>) returns (settings: Settings)
    ensures settings == Resolved(hyperparams)
  {
    var tokenizerJson := Str("./modules/tortoise-tts/tortoise/data/tokenizer.json");
    var validationBatchSize := Int(8);
    var optimizer := Str("adamw");
    var validationRate := Int(5);
    var learningRateScheme := Str("Multistep");
    var validationEnabled := Str("false");
    var saveRate := Int(5);
    var melLrWeight := Int(1);
    var textLrWeight := Num(0.01, "0.01");
    var gradientAccumulationSize := Int(16);
    var halfP := Str("false");
    var bitsandbytes := Str("true");
    var workers := Int(2);
    var gpus := Int(1);
    var voice := Str("voice_default");

    tokenizerJson := Override(hyperparams, "tokenizer_json", tokenizerJson);
    validationBatchSize := Override(hyperparams, "validation_batch_size", validationBatchSize);
    optimizer := Override(hyperparams, "optimizer", optimizer);
    validationRate := Override(hyperparams, "validation_rate", validationRate);
    learningRateScheme := Override(hyperparams, "learning_rate_scheme", learningRateScheme);
    validationEnabled := Override(hyperparams, "validation_enabled", validationEnabled);
    saveRate := Override(hyperparams, "save_rate", saveRate);
    melLrWeight := Override(hyperparams, "mel_lr_weight", melLrWeight);
    textLrWeight := Override(hyperparams, "text_lr_weight", textLrWeight);
    gradientAccumulationSize := Override(hyperparams, "gradient_accumulation_size", gradientAccumulationSize);
    saveRate := Override(hyperparams, "save_rate", saveRate);
    halfP := Override(hyperparams, "half_p", halfP);
    bitsandbytes := Override(hyperparams, "bitsandbytes", bitsandbytes);
    validationEnabled := Override(hyperparams, "validation_enabled", validationEnabled);
    workers := Override(hyperparams, "workers", workers);
    gpus := Override(hyperparams, "gpus", gpus);
    voice := Override(hyperparams, "voice", voice);

    settings := Settings(
      tokenizerJson,
      validationBatchSize,
      optimizer,
      validationRate,
      learningRateScheme,
      validationEnabled,
      saveRate,
      melLrWeight,
      textLrWeight,
      gradientAccumulationSize,
      halfP,
      bitsandbytes,
      workers,
      gpus,
      voice);
  }

  /** `process`: the required keys, the settings, the iteration count and the
      chain of `replace` calls. */
  method Process(numLines: nat, hyperparams: map<string, Value>, templateYaml: string) returns (r: Result<string>)
    ensures r == ProcessSpec(numLines, hyperparams, templateYaml)
    ensures r.Ok? && NoPlaceholders(templateYaml) ==> r.value == templateYaml
  {
    if "epochs" !in hyperparams {
      return Raise(Raised("epoch is a required hyperparameter"));
    }
    if "batch_size" !in hyperparams {
      return Raise(Raised("batch_size is a required hyperparameter"));
    }
    if "learning_rate" !in hyperparams {
      return Raise(Raised("learning_rate is a required hyperparameter"));
    }
    var epochs := hyperparams["epochs"];
    var batchSize := hyperparams["batch_size"];
    var learningRate := hyperparams["learning_rate"];

    var settings := Overrides(hyperparams);
    var iterations :- CalcIterations(epochs, numLines, batchSize);
    var text := FillTemplate(templateYaml, iterations, batchSize, learningRate, settings);
    return Ok(text);
  }
}
