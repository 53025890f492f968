/**
 * The boot-image assembler: a boot sector and a kernel, both raw byte strings,
 * are stitched into one flat floppy image.  Reading the two input files is
 * modelled by `Option` inputs (None: the file was not found), writing the
 * image and the diagnostic lines are left to the caller.
 */
module BootImage {
  import opened Wrappers

  type Byte = bv8

  /** One disk sector. */
  const SectorSize: nat := 512
  /** A 1.44 MB floppy: 80 cylinders, 2 heads, 18 sectors of 512 bytes. */
  const FloppySize: nat := 1474560
  /** The IBM PC BIOS boot signature, read as a little-endian 16-bit word. */
  const BootSignature: nat := 0xAA55

  datatype Error =
    | BootNotFound
    | OversizeBootSector(size: nat)
    | KernelNotFound

  /**
   * A successful build: the image, the kernel's sector count and the
   * non-fatal signature warning (the offending 16-bit value), if any.
   */
  datatype Outcome =
    | Built(image: seq<Byte>, sectors: nat, warning: Option<nat>)
    | Failed(error: Error)

  function Zeros(n: nat): (z: seq<Byte>)
    ensures |z| == n
    ensures forall i :: 0 <= i < n ==> z[i] == 0
  {
    seq(n, _ => 0)
  }

  /** The last two bytes read as an unsigned little-endian 16-bit word. */
  function LastWordLE(boot: seq<Byte>): (w: nat)
    requires |boot| >= 2
    ensures w < 0x10000
    ensures w == BootSignature <==> boot[|boot| - 2] == 0x55 && boot[|boot| - 1] == 0xAA
  {
    boot[|boot| - 2] as nat + 256 * boot[|boot| - 1] as nat
  }

  /**
   * The warning is raised on the boot sector as read (before padding), and
   * only when it holds at least two bytes whose last two differ from 0x55 0xAA.
   */
  function SignatureWarning(boot: seq<Byte>): (w: Option<nat>)
    ensures w.Some? <==> |boot| >= 2 && !(boot[|boot| - 2] == 0x55 && boot[|boot| - 1] == 0xAA)
    ensures w.Some? ==> w.value < 0x10000 && w.value != BootSignature
  {
    if |boot| >= 2 && LastWordLE(boot) != BootSignature then Some(LastWordLE(boot)) else None
  }

  /** Zero-pads an accepted boot sector to exactly one sector. */
  function PadBoot(boot: seq<Byte>): (sector: seq<Byte>)
    requires |boot| <= SectorSize
    ensures |sector| == SectorSize
    ensures sector[..|boot|] == boot
    ensures forall i :: |boot| <= i < SectorSize ==> sector[i] == 0
  {
    if |boot| < SectorSize then boot + Zeros(SectorSize - |boot|) else boot
  }

  /** Number of sectors the kernel occupies: the least k with len <= 512 * k. */
  function SectorCount(len: nat): (k: nat)
    ensures len <= SectorSize * k < len + SectorSize
    ensures k == 0 <==> len == 0
  {
    (len + 511) / 512
  }

  /** Zero-pads the kernel up to the next sector boundary. */
  function PadKernel(kern: seq<Byte>): (padded: seq<Byte>)
    ensures |padded| == SectorSize * SectorCount(|kern|)
    ensures padded[..|kern|] == kern
    ensures forall i :: |kern| <= i < |padded| ==> padded[i] == 0
    ensures |kern| % SectorSize == 0 ==> padded == kern
  {
    if |kern| % 512 != 0 then kern + Zeros(512 - |kern| % 512) else kern
  }

  /** Concatenates and pads to the floppy size; longer contents are kept whole. */
  function ComposeImage(sector: seq<Byte>, kernel: seq<Byte>): (img: seq<Byte>)
    ensures |img| == if |sector| + |kernel| < FloppySize then FloppySize else |sector| + |kernel|
    ensures img[..|sector| + |kernel|] == sector + kernel
    ensures forall i :: |sector| + |kernel| <= i < |img| ==> img[i] == 0
  {
    var img := sector + kernel;
    if |img| < FloppySize then img + Zeros(FloppySize - |img|) else img
  }

  /**
   * The whole assembler, with file reading given as its results: it fails
   * exactly on the three fatal causes; a built image starts with the padded
   * boot sector, fills at least one floppy and reports the kernel's sector
   * count and the signature warning (`ImageLayout` gives it byte by byte).
   */
  function Build(boot: Option<seq<Byte>>, kern: Option<seq<Byte>>): (o: Outcome)
    ensures o.Failed? <==> boot.None? || |boot.value| > SectorSize || kern.None?
    ensures o.Built? ==>
      o.sectors == SectorCount(|kern.value|) && o.warning == SignatureWarning(boot.value)
    ensures o.Built? ==> |o.image| >= FloppySize && o.image[..SectorSize] == PadBoot(boot.value)
  {
    if boot.None? then Failed(BootNotFound)
    else if |boot.value| > SectorSize then Failed(OversizeBootSector(|boot.value|))
    else
      var warning := SignatureWarning(boot.value);
      var sector := PadBoot(boot.value);
      if kern.None? then Failed(KernelNotFound)
      else
        var sectors := SectorCount(|kern.value|);
        var img := ComposeImage(sector, PadKernel(kern.value));
        assert img[..SectorSize] == img[..SectorSize + |PadKernel(kern.value)|][..SectorSize];
        Built(img, sectors, warning)
  }

  /** An oversize boot sector is fatal whatever the kernel is, even a missing one. */
  lemma OversizeBootIsFatal(boot: seq<Byte>, kern: Option<seq<Byte>>)
    requires |boot| > SectorSize
    ensures Build(Some(boot), kern) == Failed(OversizeBootSector(|boot|))
  {
  }

  /** The only failures are the three fatal ones, each exactly when its cause holds. */
  lemma FailureCauses(boot: Option<seq<Byte>>, kern: Option<seq<Byte>>)
    ensures Build(boot, kern).Failed? <==>
      boot.None? || |boot.value| > SectorSize || kern.None?
    ensures Build(boot, kern) == Failed(KernelNotFound) <==>
      boot.Some? && |boot.value| <= SectorSize && kern.None?
  {
  }

  /**
   * Layout of a built image, byte by byte: the boot sector as read, zeros to
   * the end of sector 0, the kernel from byte 512, zeros everywhere else.
   */
  lemma {:induction false} ImageLayout(boot: seq<Byte>, kern: seq<Byte>)
    requires |boot| <= SectorSize
    ensures Build(Some(boot), Some(kern)).Built?
    ensures var o := Build(Some(boot), Some(kern));
      && o.sectors == SectorCount(|kern|)
      && |o.image| == (if SectorSize + SectorSize * o.sectors < FloppySize
                       then FloppySize else SectorSize + SectorSize * o.sectors)
      && (forall i :: 0 <= i < |boot| ==> o.image[i] == boot[i])
      && (forall i :: 0 <= i < |kern| ==> o.image[SectorSize + i] == kern[i])
      && (forall i :: 0 <= i < |o.image| && (|boot| <= i < SectorSize || SectorSize + |kern| <= i) ==>
            o.image[i] == 0)
  {
    var sector, padded := PadBoot(boot), PadKernel(kern);
    var img := ComposeImage(sector, padded);
    assert Build(Some(boot), Some(kern)) == Built(img, SectorCount(|kern|), SignatureWarning(boot));
    forall i | 0 <= i < |boot| ensures img[i] == boot[i] {
      assert img[i] == (sector + padded)[i] == sector[i];
      assert sector[..|boot|][i] == sector[i];
    }
    forall i | 0 <= i < |kern| ensures img[SectorSize + i] == kern[i] {
      assert img[SectorSize + i] == (sector + padded)[SectorSize + i] == padded[i];
      assert padded[..|kern|][i] == padded[i];
    }
    forall i | 0 <= i < |img| && (|boot| <= i < SectorSize || SectorSize + |kern| <= i)
      ensures img[i] == 0
    {
      if i < SectorSize {
        assert img[i] == (sector + padded)[i] == sector[i];
      } else if i < SectorSize + |padded| {
        assert img[i] == (sector + padded)[i] == padded[i - SectorSize];
      }
    }
  }

  /** The image is exactly one floppy precisely when the padded kernel fits. */
  lemma ImageFitsFloppy(boot: seq<Byte>, kern: seq<Byte>)
    requires |boot| <= SectorSize
    ensures var o := Build(Some(boot), Some(kern));
      o.Built? && (|o.image| == FloppySize <==> |kern| <= FloppySize - SectorSize)
  {
    ImageLayout(boot, kern);
  }

  /** No size guard: an oversize kernel yields a longer image, never an error or a truncation. */
  lemma OversizeKernelIsKept(boot: seq<Byte>, kern: seq<Byte>)
    requires |boot| <= SectorSize
    requires |kern| > FloppySize - SectorSize
    ensures var o := Build(Some(boot), Some(kern));
      o.Built? && |o.image| > FloppySize && o.image[SectorSize..SectorSize + |kern|] == kern
  {
    ImageLayout(boot, kern);
    var o := Build(Some(boot), Some(kern));
    assert o.image[SectorSize..SectorSize + |kern|] == kern by {
      forall i | 0 <= i < |kern| ensures o.image[SectorSize..SectorSize + |kern|][i] == kern[i] {
        assert o.image[SectorSize..SectorSize + |kern|][i] == o.image[SectorSize + i];
      }
    }
  }

  /**
   * The signature is checked before padding: a 510-byte boot sector ending in
   * 0x55 0xAA raises no warning, although bytes 510 and 511 of the image,
   * where the BIOS looks for the signature, are zero.
   */
  lemma UnpaddedSignatureCheck(boot: seq<Byte>, kern: seq<Byte>)
    requires |boot| == 510 && boot[508] == 0x55 && boot[509] == 0xAA
    ensures var o := Build(Some(boot), Some(kern));
      o.Built? && o.warning.None? && o.image[510] == 0 && o.image[511] == 0
  {
    ImageLayout(boot, kern);
  }

  /** A short boot sector (under two bytes) never warns. */
  lemma ShortBootNeverWarns(boot: seq<Byte>, kern: seq<Byte>)
    requires |boot| < 2
    ensures Build(Some(boot), Some(kern)).Built?
    ensures Build(Some(boot), Some(kern)).warning.None?
  {
  }

  /** 510-byte signed boot sector and a 1000-byte kernel: two sectors, one floppy, no warning. */
  lemma ScenarioSignedBootSmallKernel(boot: seq<Byte>, kern: seq<Byte>)
    requires |boot| == 510 && boot[508] == 0x55 && boot[509] == 0xAA
    requires |kern| == 1000
    ensures Build(Some(boot), Some(kern)) ==
      Built(Build(Some(boot), Some(kern)).image, 2, None)
    ensures |Build(Some(boot), Some(kern)).image| == FloppySize
  {
    ImageLayout(boot, kern);
  }

  /** 512-byte boot sector ending in 0x00 0x00: warning 0x0000, build continues. */
  lemma ScenarioUnsignedBoot(boot: seq<Byte>, kern: seq<Byte>)
    requires |boot| == 512 && boot[510] == 0 && boot[511] == 0
    ensures Build(Some(boot), Some(kern)).Built?
    ensures Build(Some(boot), Some(kern)).warning == Some(0)
  {
  }

  /** Empty kernel: zero sectors and a floppy that is all zeros after sector 0. */
  lemma ScenarioEmptyKernel(boot: seq<Byte>)
    requires |boot| <= SectorSize
    ensures var o := Build(Some(boot), Some([]));
      && o.Built? && o.sectors == 0 && |o.image| == FloppySize
      && forall i :: SectorSize <= i < FloppySize ==> o.image[i] == 0
  {
    ImageLayout(boot, []);
  }
}
