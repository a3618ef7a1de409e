/**
 * Images are opaque: an image is the file it was decoded from together with the
 * list of transformation stages applied to it, first stage first. Pixel arithmetic,
 * codecs and random draws are not modelled; a random draw is named by a number.
 */
module Images {
  import opened Wrappers
  import opened Paths

  /** The settings handed to Keras' ImageDataGenerator. */
  datatype GeneratorParams = GeneratorParams(
    zoomRange: real,
    horizontalFlip: bool,
    rotationRange: int,
    shearRange: real,
    brightnessRange: Option<(real, real)>,
    fillMode: string)

  datatype Stage =
    | RandomAugment(params: GeneratorParams, draw: nat)   // one batch of ImageDataGenerator.flow
    | GaussianBlur(radius: int)                          // PIL ImageFilter.GaussianBlur
    | GaussianNoise(mean: int, std: int, draw: nat)      // np.random.normal, clipped to 0..255
    | Grayscale                                          // cv2.cvtColor(BGR2GRAY)
    | Resize(width: int, height: int)                    // cv2.resize
    | NormalizeMinMax(low: int, high: int)               // cv2.normalize(NORM_MINMAX)
    | ToUint8                                            // astype(np.uint8)
    | ScaleToUnit                                        // astype(np.float32) / 255.0

  /**
   * The assertion code that opens OpenCV's error for an empty input image, as
   * `cv2.cvtColor` and `cv2.resize` raise it when `cv2.imread` returned None; the
   * source file, line and function name that follow are left out.
   */
  const EmptyInput: string := "(-215:Assertion failed)"

  datatype Image = Decoded(path: string) | Applied(stage: Stage, input: Image)

  /** The file an image was decoded from. */
  function Source(img: Image): string {
    match img
    case Decoded(p) => p
    case Applied(_, i) => Source(i)
  }

  /** The stages applied to an image, first stage first. */
  function History(img: Image): seq<Stage> {
    match img
    case Decoded(_) => []
    case Applied(s, i) => History(i) + [s]
  }

  /** Runs `stages` over `img` in order. */
  function Apply(img: Image, stages: seq<Stage>): Image
    decreases |stages|
  {
    if stages == [] then img
    else Applied(stages[|stages| - 1], Apply(img, stages[..|stages| - 1]))
  }

  /** Running a stage list keeps the source file and records exactly those stages, in order. */
  lemma {:induction false} ApplyRecords(img: Image, stages: seq<Stage>)
    ensures Source(Apply(img, stages)) == Source(img)
    ensures History(Apply(img, stages)) == History(img) + stages
    decreases |stages|
  {
    if stages != [] {
      var init := stages[..|stages| - 1];
      ApplyRecords(img, init);
      assert init + [stages[|stages| - 1]] == stages;
    }
  }

  /** Two pipelines over decoded files give the same image only for the same file and stages. */
  lemma ApplyInjective(p: string, q: string, s: seq<Stage>, t: seq<Stage>)
    requires Apply(Decoded(p), s) == Apply(Decoded(q), t)
    ensures p == q && s == t
  {
    ApplyRecords(Decoded(p), s);
    ApplyRecords(Decoded(q), t);
  }

  /** An image is determined by its source file and its stages. */
  lemma {:induction false} ImageDetermined(a: Image, b: Image)
    requires Source(a) == Source(b) && History(a) == History(b)
    ensures a == b
  {
    if a.Applied? && b.Applied? {
      var x, y := a.input, b.input;
      assert History(x) == History(a)[..|History(a)| - 1];
      assert History(y) == History(b)[..|History(b)| - 1];
      ImageDetermined(x, y);
    }
  }

  /** One image file written to disk: the file `name` in directory `dir`, and which image. */
  datatype Write = Write(dir: string, name: string, image: Image) {
    /** The path the file is written to: `os.path.join(dir, name)`. */
    function Path(): string {
      Join(dir, name)
    }
  }
}
