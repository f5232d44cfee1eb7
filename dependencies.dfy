/**
 * Package dependency lists and the selector-driven choice of a version
 * constraint. The TFX_DEPENDENCY_SELECTOR environment variable is a parameter
 * (`None` when unset).
 */
module Dependencies {
  import opened Wrappers

  /** select_constraint: the constraint string the selector picks. */
  function SelectConstraint(selector: Option<string>, default: string, nightly: Option<string>, gitMaster: Option<string>): (r: string)
    ensures selector == Some("UNCONSTRAINED") ==> r == ""
    ensures selector == Some("NIGHTLY") && nightly.Some? ==> r == nightly.value
    ensures selector == Some("GIT_MASTER") && gitMaster.Some? ==> r == gitMaster.value
    ensures selector.None? ==> r == default
    ensures selector.Some? && selector.value !in {"UNCONSTRAINED", "NIGHTLY", "GIT_MASTER"} ==> r == default
    ensures selector == Some("NIGHTLY") && nightly.None? ==> r == default
    ensures selector == Some("GIT_MASTER") && gitMaster.None? ==> r == default
  {
    if selector == Some("UNCONSTRAINED") then ""
    else if selector == Some("NIGHTLY") && nightly.Some? then nightly.value
    else if selector == Some("GIT_MASTER") && gitMaster.Some? then gitMaster.value
    else default
  }

  /** The choice is always one of the constraints offered, or the empty one. */
  lemma SelectConstraintPicksOffered(selector: Option<string>, default: string, nightly: Option<string>, gitMaster: Option<string>)
    ensures var r := SelectConstraint(selector, default, nightly, gitMaster);
      r == "" || r == default || Some(r) == nightly || Some(r) == gitMaster
  {
  }

  /**
   * The constraint depends on nothing but the selector and the alternative
   * it names: UNCONSTRAINED ignores all three, NIGHTLY with a nightly
   * constraint ignores the other two, GIT_MASTER with a git-master constraint
   * ignores the other two.
   */
  lemma SelectConstraintIgnoresOthers(selector: Option<string>, default: string, nightly: Option<string>, gitMaster: Option<string>,
                                      default': string, nightly': Option<string>, gitMaster': Option<string>)
    ensures selector == Some("UNCONSTRAINED") ==>
      SelectConstraint(selector, default, nightly, gitMaster) == SelectConstraint(selector, default', nightly', gitMaster')
    ensures selector == Some("NIGHTLY") && nightly.Some? ==>
      SelectConstraint(selector, default, nightly, gitMaster) == SelectConstraint(selector, default', nightly, gitMaster')
    ensures selector == Some("GIT_MASTER") && gitMaster.Some? ==>
      SelectConstraint(selector, default, nightly, gitMaster) == SelectConstraint(selector, default', nightly', gitMaster)
  {
  }

  /** The alternatives one select_constraint call offers. */
  datatype ConstraintChoice = ConstraintChoice(default: string, nightly: Option<string>, gitMaster: Option<string>)

  const MlmdChoice := ConstraintChoice(">=1.13.1,<1.14.0", Some(">=1.14.0.dev"),
                                       Some("@git+https://github.com/google/ml-metadata@master"))
  const TensorflowChoice := ConstraintChoice(">=2.12.0,<2.13", None, None)
  const DataValidationChoice := ConstraintChoice(">=1.13.0,<1.14.0", Some(">=1.14.0.dev"),
                                                 Some("@git+https://github.com/tensorflow/data-validation@master"))
  const ModelAnalysisChoice := ConstraintChoice(">=0.44.0,<0.45.0", Some(">=0.45.0.dev"),
                                                Some("@git+https://github.com/tensorflow/model-analysis@master"))
  const TransformChoice := ConstraintChoice(">=1.13.0,<1.14.0", Some(">=1.14.0.dev"),
                                            Some("@git+https://github.com/tensorflow/transform@master"))
  const TfxBslChoice := ConstraintChoice(">=1.13.0,<1.14.0", Some(">=1.14.0.dev"),
                                         Some("@git+https://github.com/tensorflow/tfx-bsl@master"))

  function Pick(selector: Option<string>, choice: ConstraintChoice): string
  {
    SelectConstraint(selector, choice.default, choice.nightly, choice.gitMaster)
  }

  /** The pipeline SDK package list, given the constraint picked for ml-metadata. */
  function PipelineSdkPackages(mlmd: string): (r: seq<string>)
    ensures |r| == 10
  {
    [
      "absl-py>=0.9,<2.0.0",
      "ml-metadata" + mlmd,
      "packaging>=20,<21",
      "portpicker>=1.3.1,<2",
      "protobuf>=3.20.3,<5",
      "docker>=4.1,<5",
      "google-apitools>=0.5,<1",
      "google-api-python-client>=1.8,<2",
      "jinja2>=2.7.3,<4",
      "typing-extensions>=3.10.0.2,<5"
    ]
  }

  /** make_pipeline_sdk_required_install_packages. */
  function MakePipelineSdkRequiredInstallPackages(selector: Option<string>): (r: seq<string>)
    ensures |r| == 10
    ensures r[1] == "ml-metadata" + SelectConstraint(selector, ">=1.13.1,<1.14.0", Some(">=1.14.0.dev"),
                                                     Some("@git+https://github.com/google/ml-metadata@master"))
  {
    PipelineSdkPackages(Pick(selector, MlmdChoice))
  }

  /**
   * The packages make_required_install_packages lists after the SDK list,
   * given the constraints picked for tensorflow, tensorflow-data-validation,
   * tensorflow-model-analysis, tensorflow-transform and tfx-bsl.
   */
  function MoreRequiredPackages(tf: string, tfdv: string, tfma: string, tft: string, bsl: string): (r: seq<string>)
    ensures |r| == 18
  {
    [
      "apache-beam[gcp]>=2.47,<3",
      "attrs>=19.3.0,<22",
      "click>=7,<9",
      "google-api-core<1.33",
      "google-cloud-aiplatform>=1.6.2,<1.18",
      "google-cloud-bigquery>=2.26.0,<3",
      "grpcio>=1.28.1,<2",
      "keras-tuner>=1.0.4,<2",
      "kubernetes>=10.0.1,<13",
      "numpy>=1.16,<2",
      "pyarrow>=10,<11",
      "pyyaml>=3.12,<6",
      "tensorflow" + tf,
      "tensorflow-data-validation" + tfdv,
      "tensorflow-model-analysis" + tfma,
      "tensorflow-serving-api>=1.15,!=2.0.*,!=2.1.*,!=2.2.*,!=2.3.*,!=2.4.*,!=2.5.*,!=2.6.*,!=2.7.*,!=2.8.*,<3",
      "tensorflow-transform" + tft,
      "tfx-bsl" + bsl
    ]
  }

  /** make_required_install_packages: the pipeline SDK packages followed by eighteen more. */
  function MakeRequiredInstallPackages(selector: Option<string>): (r: seq<string>)
    ensures MakePipelineSdkRequiredInstallPackages(selector) <= r
    ensures |r| == |MakePipelineSdkRequiredInstallPackages(selector)| + 18
  {
    MakePipelineSdkRequiredInstallPackages(selector) + MoreRequiredPackages(
      Pick(selector, TensorflowChoice), Pick(selector, DataValidationChoice), Pick(selector, ModelAnalysisChoice),
      Pick(selector, TransformChoice), Pick(selector, TfxBslChoice))
  }

  /** Positions in make_required_install_packages whose entry takes a select_constraint suffix. */
  const SelectorDrivenPositions: set<int> := {1, 22, 23, 24, 26, 27}

  /** Two lists of the same length that agree on every position outside `positions`. */
  ghost predicate AgreeOutside(a: seq<string>, b: seq<string>, positions: set<int>)
  {
    |a| == |b| && forall i :: 0 <= i < |a| && i !in positions ==> a[i] == b[i]
  }

  lemma PipelineSdkPackagesAgree(mlmd1: string, mlmd2: string)
    ensures AgreeOutside(PipelineSdkPackages(mlmd1), PipelineSdkPackages(mlmd2), {1})
  {
  }

  lemma MoreRequiredPackagesAgree(tf1: string, tfdv1: string, tfma1: string, tft1: string, bsl1: string,
                                  tf2: string, tfdv2: string, tfma2: string, tft2: string, bsl2: string)
    ensures AgreeOutside(MoreRequiredPackages(tf1, tfdv1, tfma1, tft1, bsl1),
                         MoreRequiredPackages(tf2, tfdv2, tfma2, tft2, bsl2), {12, 13, 14, 16, 17})
  {
  }

  /**
   * The selector changes only the constraints of the selector-driven
   * entries: the list has the same length whatever the selector, and every
   * other entry is the same string.
   */
  lemma SelectorOnlyChangesConstraints(selector1: Option<string>, selector2: Option<string>)
    ensures AgreeOutside(MakeRequiredInstallPackages(selector1), MakeRequiredInstallPackages(selector2),
                         SelectorDrivenPositions)
  {
    var p1, p2 := MakePipelineSdkRequiredInstallPackages(selector1), MakePipelineSdkRequiredInstallPackages(selector2);
    var m1 := MoreRequiredPackages(Pick(selector1, TensorflowChoice), Pick(selector1, DataValidationChoice),
                                   Pick(selector1, ModelAnalysisChoice), Pick(selector1, TransformChoice),
                                   Pick(selector1, TfxBslChoice));
    var m2 := MoreRequiredPackages(Pick(selector2, TensorflowChoice), Pick(selector2, DataValidationChoice),
                                   Pick(selector2, ModelAnalysisChoice), Pick(selector2, TransformChoice),
                                   Pick(selector2, TfxBslChoice));
    PipelineSdkPackagesAgree(Pick(selector1, MlmdChoice), Pick(selector2, MlmdChoice));
    MoreRequiredPackagesAgree(Pick(selector1, TensorflowChoice), Pick(selector1, DataValidationChoice),
                              Pick(selector1, ModelAnalysisChoice), Pick(selector1, TransformChoice),
                              Pick(selector1, TfxBslChoice),
                              Pick(selector2, TensorflowChoice), Pick(selector2, DataValidationChoice),
                              Pick(selector2, ModelAnalysisChoice), Pick(selector2, TransformChoice),
                              Pick(selector2, TfxBslChoice));
    var r1, r2 := p1 + m1, p2 + m2;
    forall i | 0 <= i < |r1| && i !in SelectorDrivenPositions
      ensures r1[i] == r2[i]
    {
      if i >= 10 {
        assert r1[i] == m1[i - 10] && r2[i] == m2[i - 10];
      }
    }
  }

  /** make_extra_packages_airflow. */
  function MakeExtraPackagesAirflow(): (r: seq<string>)
    ensures |r| == 1
  {
    ["apache-airflow[mysql]>=1.10.14,<3"]
  }

  /** make_extra_packages_kfp. */
  function MakeExtraPackagesKfp(): (r: seq<string>)
    ensures |r| == 2
  {
    ["kfp>=1.8.14,<2", "kfp-pipeline-spec>=0.1.10,<0.2"]
  }

  /** make_extra_packages_test: the Airflow list, then the KFP list, then pytest. */
  function MakeExtraPackagesTest(): (r: seq<string>)
    ensures |r| == |MakeExtraPackagesAirflow()| + |MakeExtraPackagesKfp()| + 1
    ensures r[..|MakeExtraPackagesAirflow()|] == MakeExtraPackagesAirflow()
    ensures r[|MakeExtraPackagesAirflow()|..|r| - 1] == MakeExtraPackagesKfp()
    ensures r[|r| - 1] == "pytest>=5,<7"
  {
    MakeExtraPackagesAirflow() + MakeExtraPackagesKfp() + ["pytest>=5,<7"]
  }
}
