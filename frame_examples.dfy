/** The frame codes, extents and points of the base-map frame module's
    own test cases, stated as lemmas about the model. */
module BaseMapFrameExamples {
  import opened MeshBasics
  import opened BaseMapFrames

  /** A point of a frame's (already computed) extent leads back to the frame. */
  lemma FromPointOfExtent(f: BaseMapFrame, e: FrameExtent, x: real, y: real)
    requires TryFrom(f.code) == Ok(f) && f.Extent() == e && e.Contains(x, y)
    ensures FromLevelXy(FrameSystem(f), f.Level(), x, y) == Ok(f)
  {
    FromLevelXyRecovers(f, x, y);
  }

  /** `try_from` tags each code with the level its pattern names. */
  lemma TryFromAccepts()
    ensures TryFrom("07AA") == Ok(Level50000("07AA"))
    ensures TryFrom("07AH") == Ok(Level50000("07AH"))
    ensures TryFrom("07TA") == Ok(Level50000("07TA"))
    ensures TryFrom("07TH") == Ok(Level50000("07TH"))
    ensures TryFrom("07AA10") == Ok(Level5000("07AA10"))
    ensures TryFrom("07AA101") == Ok(Level2500("07AA101"))
    ensures TryFrom("07AA101A") == Ok(Level1000("07AA101A"))
    ensures TryFrom("07AA1010") == Ok(Level500("07AA1010"))
  {
  }

  /** Codes that are too short, or whose row or column letter lies outside
      A–T / A–H, are rejected. */
  lemma TryFromRejects()
    ensures TryFrom("0") == Err(InvalidFrameCode)
    ensures TryFrom("11") == Err(InvalidFrameCode)
    ensures TryFrom("07A") == Err(InvalidFrameCode)
    ensures TryFrom("07A0") == Err(InvalidFrameCode)
    ensures TryFrom("07AI") == Err(InvalidFrameCode)
    ensures TryFrom("07UA") == Err(InvalidFrameCode)
  {
  }

  /** The sizes of one frame of each level. */
  lemma FrameSizes()
    ensures Level50000("07AA").Width() == 40000 && Level50000("07AA").Height() == 30000
    ensures Level5000("07AA10").Width() == 4000 && Level5000("07AA10").Height() == 3000
    ensures Level2500("07AA101").Width() == 2000 && Level2500("07AA101").Height() == 1500
    ensures Level1000("07AA101A").Width() == 800 && Level1000("07AA101A").Height() == 600
    ensures Level500("07AA1010").Width() == 400 && Level500("07AA1010").Height() == 300
  {
  }

  lemma Extent50000_07AA()
    ensures Level50000("07AA").Decodable() && Level50000("07AA").Extent() == FrameExtent(-160000, 270000, -120000, 300000)
  {
  }

  lemma Extent50000_07AH()
    ensures Level50000("07AH").Decodable() && Level50000("07AH").Extent() == FrameExtent(120000, 270000, 160000, 300000)
  {
  }

  lemma Extent50000_07TH()
    ensures Level50000("07TH").Decodable() && Level50000("07TH").Extent() == FrameExtent(120000, -300000, 160000, -270000)
  {
  }

  lemma Extent50000_07TA()
    ensures Level50000("07TA").Decodable() && Level50000("07TA").Extent() == FrameExtent(-160000, -300000, -120000, -270000)
  {
  }

  lemma Extent50000_07JD()
    ensures Level50000("07JD").Decodable() && Level50000("07JD").Extent() == FrameExtent(-40000, 0, 0, 30000)
  {
  }

  lemma Extent50000_07JE()
    ensures Level50000("07JE").Decodable() && Level50000("07JE").Extent() == FrameExtent(0, 0, 40000, 30000)
  {
  }

  lemma Extent50000_07KE()
    ensures Level50000("07KE").Decodable() && Level50000("07KE").Extent() == FrameExtent(0, -30000, 40000, 0)
  {
  }

  lemma Extent50000_07KD()
    ensures Level50000("07KD").Decodable() && Level50000("07KD").Extent() == FrameExtent(-40000, -30000, 0, 0)
  {
  }

  lemma Extent5000_07JE00()
    ensures Level5000("07JE00").Decodable() && Level5000("07JE00").Extent() == FrameExtent(0, 27000, 4000, 30000)
  {
  }

  lemma Extent5000_07JE09()
    ensures Level5000("07JE09").Decodable() && Level5000("07JE09").Extent() == FrameExtent(36000, 27000, 40000, 30000)
  {
  }

  lemma Extent5000_07JE99()
    ensures Level5000("07JE99").Decodable() && Level5000("07JE99").Extent() == FrameExtent(36000, 0, 40000, 3000)
  {
  }

  lemma Extent5000_07JE90()
    ensures Level5000("07JE90").Decodable() && Level5000("07JE90").Extent() == FrameExtent(0, 0, 4000, 3000)
  {
  }

  lemma Extent5000_07JE44()
    ensures Level5000("07JE44").Decodable() && Level5000("07JE44").Extent() == FrameExtent(16000, 15000, 20000, 18000)
  {
  }

  lemma Extent5000_07JE45()
    ensures Level5000("07JE45").Decodable() && Level5000("07JE45").Extent() == FrameExtent(20000, 15000, 24000, 18000)
  {
  }

  lemma Extent5000_07JE55()
    ensures Level5000("07JE55").Decodable() && Level5000("07JE55").Extent() == FrameExtent(20000, 12000, 24000, 15000)
  {
  }

  lemma Extent5000_07JE54()
    ensures Level5000("07JE54").Decodable() && Level5000("07JE54").Extent() == FrameExtent(16000, 12000, 20000, 15000)
  {
  }

  lemma Extent2500_07JE901()
    ensures Level2500("07JE901").Decodable() && Level2500("07JE901").Extent() == FrameExtent(0, 1500, 2000, 3000)
  {
  }

  lemma Extent2500_07JE902()
    ensures Level2500("07JE902").Decodable() && Level2500("07JE902").Extent() == FrameExtent(2000, 1500, 4000, 3000)
  {
  }

  lemma Extent2500_07JE904()
    ensures Level2500("07JE904").Decodable() && Level2500("07JE904").Extent() == FrameExtent(2000, 0, 4000, 1500)
  {
  }

  lemma Extent2500_07JE903()
    ensures Level2500("07JE903").Decodable() && Level2500("07JE903").Extent() == FrameExtent(0, 0, 2000, 1500)
  {
  }

  lemma Extent1000_07JE900A()
    ensures Level1000("07JE900A").Decodable() && Level1000("07JE900A").Extent() == FrameExtent(0, 2400, 800, 3000)
  {
  }

  lemma Extent1000_07JE900E()
    ensures Level1000("07JE900E").Decodable() && Level1000("07JE900E").Extent() == FrameExtent(3200, 2400, 4000, 3000)
  {
  }

  lemma Extent1000_07JE904E()
    ensures Level1000("07JE904E").Decodable() && Level1000("07JE904E").Extent() == FrameExtent(3200, 0, 4000, 600)
  {
  }

  lemma Extent1000_07JE904A()
    ensures Level1000("07JE904A").Decodable() && Level1000("07JE904A").Extent() == FrameExtent(0, 0, 800, 600)
  {
  }

  lemma Extent1000_07JE902C()
    ensures Level1000("07JE902C").Decodable() && Level1000("07JE902C").Extent() == FrameExtent(1600, 1200, 2400, 1800)
  {
  }

  lemma Extent500_07JE9000()
    ensures Level500("07JE9000").Decodable() && Level500("07JE9000").Extent() == FrameExtent(0, 2700, 400, 3000)
  {
  }

  lemma Extent500_07JE9009()
    ensures Level500("07JE9009").Decodable() && Level500("07JE9009").Extent() == FrameExtent(3600, 2700, 4000, 3000)
  {
  }

  lemma Extent500_07JE9099()
    ensures Level500("07JE9099").Decodable() && Level500("07JE9099").Extent() == FrameExtent(3600, 0, 4000, 300)
  {
  }

  lemma Extent500_07JE9090()
    ensures Level500("07JE9090").Decodable() && Level500("07JE9090").Extent() == FrameExtent(0, 0, 400, 300)
  {
  }

  lemma Extent500_07JE9044()
    ensures Level500("07JE9044").Decodable() && Level500("07JE9044").Extent() == FrameExtent(1600, 1500, 2000, 1800)
  {
  }

  lemma Extent500_07JE9045()
    ensures Level500("07JE9045").Decodable() && Level500("07JE9045").Extent() == FrameExtent(2000, 1500, 2400, 1800)
  {
  }

  lemma Extent500_07JE9055()
    ensures Level500("07JE9055").Decodable() && Level500("07JE9055").Extent() == FrameExtent(2000, 1200, 2400, 1500)
  {
  }

  lemma Extent500_07JE9054()
    ensures Level500("07JE9054").Decodable() && Level500("07JE9054").Extent() == FrameExtent(1600, 1200, 2000, 1500)
  {
  }

  lemma Frame50000_07AA()
    ensures TryFrom("07AA") == Ok(Level50000("07AA"))
    ensures Level50000("07AA").Decodable() && Level50000("07AA").Extent() == FrameExtent(-160000, 270000, -120000, 300000)
    ensures FrameSystem(Level50000("07AA")) == 7
  {
  }

  lemma Frame50000_07AH()
    ensures TryFrom("07AH") == Ok(Level50000("07AH"))
    ensures Level50000("07AH").Decodable() && Level50000("07AH").Extent() == FrameExtent(120000, 270000, 160000, 300000)
    ensures FrameSystem(Level50000("07AH")) == 7
  {
  }

  lemma Frame50000_07TH()
    ensures TryFrom("07TH") == Ok(Level50000("07TH"))
    ensures Level50000("07TH").Decodable() && Level50000("07TH").Extent() == FrameExtent(120000, -300000, 160000, -270000)
    ensures FrameSystem(Level50000("07TH")) == 7
  {
  }

  lemma Frame50000_07TA()
    ensures TryFrom("07TA") == Ok(Level50000("07TA"))
    ensures Level50000("07TA").Decodable() && Level50000("07TA").Extent() == FrameExtent(-160000, -300000, -120000, -270000)
    ensures FrameSystem(Level50000("07TA")) == 7
  {
  }

  lemma Frame50000_07JE()
    ensures TryFrom("07JE") == Ok(Level50000("07JE"))
    ensures Level50000("07JE").Decodable() && Level50000("07JE").Extent() == FrameExtent(0, 0, 40000, 30000)
    ensures FrameSystem(Level50000("07JE")) == 7
  {
  }

  lemma Frame50000_07JD()
    ensures TryFrom("07JD") == Ok(Level50000("07JD"))
    ensures Level50000("07JD").Decodable() && Level50000("07JD").Extent() == FrameExtent(-40000, 0, 0, 30000)
    ensures FrameSystem(Level50000("07JD")) == 7
  {
  }

  lemma Frame50000_07KE()
    ensures TryFrom("07KE") == Ok(Level50000("07KE"))
    ensures Level50000("07KE").Decodable() && Level50000("07KE").Extent() == FrameExtent(0, -30000, 40000, 0)
    ensures FrameSystem(Level50000("07KE")) == 7
  {
  }

  lemma Frame50000_07KD()
    ensures TryFrom("07KD") == Ok(Level50000("07KD"))
    ensures Level50000("07KD").Decodable() && Level50000("07KD").Extent() == FrameExtent(-40000, -30000, 0, 0)
    ensures FrameSystem(Level50000("07KD")) == 7
  {
  }

  lemma Frame50000_07FG()
    ensures TryFrom("07FG") == Ok(Level50000("07FG"))
    ensures Level50000("07FG").Decodable() && Level50000("07FG").Extent() == FrameExtent(80000, 120000, 120000, 150000)
    ensures FrameSystem(Level50000("07FG")) == 7
  {
  }

  lemma Frame5000_07NC00()
    ensures TryFrom("07NC00") == Ok(Level5000("07NC00"))
    ensures Level5000("07NC00").Decodable() && Level5000("07NC00").Extent() == FrameExtent(-80000, -93000, -76000, -90000)
    ensures FrameSystem(Level5000("07NC00")) == 7
  {
  }

  lemma Frame5000_07NC09()
    ensures TryFrom("07NC09") == Ok(Level5000("07NC09"))
    ensures Level5000("07NC09").Decodable() && Level5000("07NC09").Extent() == FrameExtent(-44000, -93000, -40000, -90000)
    ensures FrameSystem(Level5000("07NC09")) == 7
  {
  }

  lemma Frame5000_07NC99()
    ensures TryFrom("07NC99") == Ok(Level5000("07NC99"))
    ensures Level5000("07NC99").Decodable() && Level5000("07NC99").Extent() == FrameExtent(-44000, -120000, -40000, -117000)
    ensures FrameSystem(Level5000("07NC99")) == 7
  {
  }

  lemma Frame5000_07NC90()
    ensures TryFrom("07NC90") == Ok(Level5000("07NC90"))
    ensures Level5000("07NC90").Decodable() && Level5000("07NC90").Extent() == FrameExtent(-80000, -120000, -76000, -117000)
    ensures FrameSystem(Level5000("07NC90")) == 7
  {
  }

  lemma Frame5000_07NC45()
    ensures TryFrom("07NC45") == Ok(Level5000("07NC45"))
    ensures Level5000("07NC45").Decodable() && Level5000("07NC45").Extent() == FrameExtent(-60000, -105000, -56000, -102000)
    ensures FrameSystem(Level5000("07NC45")) == 7
  {
  }

  lemma Frame5000_07NC44()
    ensures TryFrom("07NC44") == Ok(Level5000("07NC44"))
    ensures Level5000("07NC44").Decodable() && Level5000("07NC44").Extent() == FrameExtent(-64000, -105000, -60000, -102000)
    ensures FrameSystem(Level5000("07NC44")) == 7
  {
  }

  lemma Frame5000_07NC55()
    ensures TryFrom("07NC55") == Ok(Level5000("07NC55"))
    ensures Level5000("07NC55").Decodable() && Level5000("07NC55").Extent() == FrameExtent(-60000, -108000, -56000, -105000)
    ensures FrameSystem(Level5000("07NC55")) == 7
  {
  }

  lemma Frame5000_07NC54()
    ensures TryFrom("07NC54") == Ok(Level5000("07NC54"))
    ensures Level5000("07NC54").Decodable() && Level5000("07NC54").Extent() == FrameExtent(-64000, -108000, -60000, -105000)
    ensures FrameSystem(Level5000("07NC54")) == 7
  {
  }

  lemma Frame5000_07NC37()
    ensures TryFrom("07NC37") == Ok(Level5000("07NC37"))
    ensures Level5000("07NC37").Decodable() && Level5000("07NC37").Extent() == FrameExtent(-52000, -102000, -48000, -99000)
    ensures FrameSystem(Level5000("07NC37")) == 7
  {
  }

  lemma Frame2500_07NC001()
    ensures TryFrom("07NC001") == Ok(Level2500("07NC001"))
    ensures Level2500("07NC001").Decodable() && Level2500("07NC001").Extent() == FrameExtent(-80000, -91500, -78000, -90000)
    ensures FrameSystem(Level2500("07NC001")) == 7
  {
  }

  lemma Frame2500_07NC002()
    ensures TryFrom("07NC002") == Ok(Level2500("07NC002"))
    ensures Level2500("07NC002").Decodable() && Level2500("07NC002").Extent() == FrameExtent(-78000, -91500, -76000, -90000)
    ensures FrameSystem(Level2500("07NC002")) == 7
  {
  }

  lemma Frame2500_07NC004()
    ensures TryFrom("07NC004") == Ok(Level2500("07NC004"))
    ensures Level2500("07NC004").Decodable() && Level2500("07NC004").Extent() == FrameExtent(-78000, -93000, -76000, -91500)
    ensures FrameSystem(Level2500("07NC004")) == 7
  {
  }

  lemma Frame2500_07NC003()
    ensures TryFrom("07NC003") == Ok(Level2500("07NC003"))
    ensures Level2500("07NC003").Decodable() && Level2500("07NC003").Extent() == FrameExtent(-80000, -93000, -78000, -91500)
    ensures FrameSystem(Level2500("07NC003")) == 7
  {
  }

  lemma Frame1000_07NC000A()
    ensures TryFrom("07NC000A") == Ok(Level1000("07NC000A"))
    ensures Level1000("07NC000A").Decodable() && Level1000("07NC000A").Extent() == FrameExtent(-80000, -90600, -79200, -90000)
    ensures FrameSystem(Level1000("07NC000A")) == 7
  {
  }

  lemma Frame1000_07NC000E()
    ensures TryFrom("07NC000E") == Ok(Level1000("07NC000E"))
    ensures Level1000("07NC000E").Decodable() && Level1000("07NC000E").Extent() == FrameExtent(-76800, -90600, -76000, -90000)
    ensures FrameSystem(Level1000("07NC000E")) == 7
  {
  }

  lemma Frame1000_07NC004E()
    ensures TryFrom("07NC004E") == Ok(Level1000("07NC004E"))
    ensures Level1000("07NC004E").Decodable() && Level1000("07NC004E").Extent() == FrameExtent(-76800, -93000, -76000, -92400)
    ensures FrameSystem(Level1000("07NC004E")) == 7
  {
  }

  lemma Frame1000_07NC004A()
    ensures TryFrom("07NC004A") == Ok(Level1000("07NC004A"))
    ensures Level1000("07NC004A").Decodable() && Level1000("07NC004A").Extent() == FrameExtent(-80000, -93000, -79200, -92400)
    ensures FrameSystem(Level1000("07NC004A")) == 7
  {
  }

  lemma Frame1000_07NC002C()
    ensures TryFrom("07NC002C") == Ok(Level1000("07NC002C"))
    ensures Level1000("07NC002C").Decodable() && Level1000("07NC002C").Extent() == FrameExtent(-78400, -91800, -77600, -91200)
    ensures FrameSystem(Level1000("07NC002C")) == 7
  {
  }

  lemma Frame500_07NC0000()
    ensures TryFrom("07NC0000") == Ok(Level500("07NC0000"))
    ensures Level500("07NC0000").Decodable() && Level500("07NC0000").Extent() == FrameExtent(-80000, -90300, -79600, -90000)
    ensures FrameSystem(Level500("07NC0000")) == 7
  {
  }

  lemma Frame500_07NC0009()
    ensures TryFrom("07NC0009") == Ok(Level500("07NC0009"))
    ensures Level500("07NC0009").Decodable() && Level500("07NC0009").Extent() == FrameExtent(-76400, -90300, -76000, -90000)
    ensures FrameSystem(Level500("07NC0009")) == 7
  {
  }

  lemma Frame500_07NC0099()
    ensures TryFrom("07NC0099") == Ok(Level500("07NC0099"))
    ensures Level500("07NC0099").Decodable() && Level500("07NC0099").Extent() == FrameExtent(-76400, -93000, -76000, -92700)
    ensures FrameSystem(Level500("07NC0099")) == 7
  {
  }

  lemma Frame500_07NC0090()
    ensures TryFrom("07NC0090") == Ok(Level500("07NC0090"))
    ensures Level500("07NC0090").Decodable() && Level500("07NC0090").Extent() == FrameExtent(-80000, -93000, -79600, -92700)
    ensures FrameSystem(Level500("07NC0090")) == 7
  {
  }

  lemma Frame500_07NC0044()
    ensures TryFrom("07NC0044") == Ok(Level500("07NC0044"))
    ensures Level500("07NC0044").Decodable() && Level500("07NC0044").Extent() == FrameExtent(-78400, -91500, -78000, -91200)
    ensures FrameSystem(Level500("07NC0044")) == 7
  {
  }

  lemma Frame500_07NC0045()
    ensures TryFrom("07NC0045") == Ok(Level500("07NC0045"))
    ensures Level500("07NC0045").Decodable() && Level500("07NC0045").Extent() == FrameExtent(-78000, -91500, -77600, -91200)
    ensures FrameSystem(Level500("07NC0045")) == 7
  {
  }

  lemma Frame500_07NC0055()
    ensures TryFrom("07NC0055") == Ok(Level500("07NC0055"))
    ensures Level500("07NC0055").Decodable() && Level500("07NC0055").Extent() == FrameExtent(-78000, -91800, -77600, -91500)
    ensures FrameSystem(Level500("07NC0055")) == 7
  {
  }

  lemma Frame500_07NC0054()
    ensures TryFrom("07NC0054") == Ok(Level500("07NC0054"))
    ensures Level500("07NC0054").Decodable() && Level500("07NC0054").Extent() == FrameExtent(-78400, -91800, -78000, -91500)
    ensures FrameSystem(Level500("07NC0054")) == 7
  {
  }

  lemma FromLevelXy50000_07AA()
    ensures FromLevelXy(7, L50000, -160000.0, 300000.0 - 0.000001) == Ok(Level50000("07AA"))
  {
    Frame50000_07AA();
    FromPointOfExtent(Level50000("07AA"), FrameExtent(-160000, 270000, -120000, 300000), -160000.0, 300000.0 - 0.000001);
  }

  lemma FromLevelXy50000_07AH()
    ensures FromLevelXy(7, L50000, 160000.0 - 0.000001, 300000.0 - 0.000001) == Ok(Level50000("07AH"))
  {
    Frame50000_07AH();
    FromPointOfExtent(Level50000("07AH"), FrameExtent(120000, 270000, 160000, 300000), 160000.0 - 0.000001, 300000.0 - 0.000001);
  }

  lemma FromLevelXy50000_07TH()
    ensures FromLevelXy(7, L50000, 160000.0 - 0.000001, -300000.0) == Ok(Level50000("07TH"))
  {
    Frame50000_07TH();
    FromPointOfExtent(Level50000("07TH"), FrameExtent(120000, -300000, 160000, -270000), 160000.0 - 0.000001, -300000.0);
  }

  lemma FromLevelXy50000_07TA()
    ensures FromLevelXy(7, L50000, -160000.0, -300000.0) == Ok(Level50000("07TA"))
  {
    Frame50000_07TA();
    FromPointOfExtent(Level50000("07TA"), FrameExtent(-160000, -300000, -120000, -270000), -160000.0, -300000.0);
  }

  lemma FromLevelXy50000_07JE()
    ensures FromLevelXy(7, L50000, 0.0, 0.0) == Ok(Level50000("07JE"))
  {
    Frame50000_07JE();
    FromPointOfExtent(Level50000("07JE"), FrameExtent(0, 0, 40000, 30000), 0.0, 0.0);
  }

  lemma FromLevelXy50000_07JD()
    ensures FromLevelXy(7, L50000, -40000.0, 0.0) == Ok(Level50000("07JD"))
  {
    Frame50000_07JD();
    FromPointOfExtent(Level50000("07JD"), FrameExtent(-40000, 0, 0, 30000), -40000.0, 0.0);
  }

  lemma FromLevelXy50000_07KE()
    ensures FromLevelXy(7, L50000, 0.0, -30000.0) == Ok(Level50000("07KE"))
  {
    Frame50000_07KE();
    FromPointOfExtent(Level50000("07KE"), FrameExtent(0, -30000, 40000, 0), 0.0, -30000.0);
  }

  lemma FromLevelXy50000_07KD()
    ensures FromLevelXy(7, L50000, -40000.0, -30000.0) == Ok(Level50000("07KD"))
  {
    Frame50000_07KD();
    FromPointOfExtent(Level50000("07KD"), FrameExtent(-40000, -30000, 0, 0), -40000.0, -30000.0);
  }

  lemma FromLevelXy50000_07FG()
    ensures FromLevelXy(7, L50000, 80000.0, 120000.0) == Ok(Level50000("07FG"))
  {
    Frame50000_07FG();
    FromPointOfExtent(Level50000("07FG"), FrameExtent(80000, 120000, 120000, 150000), 80000.0, 120000.0);
  }

  lemma FromLevelXy5000_07NC00()
    ensures FromLevelXy(7, L5000, -80000.0, -90000.0 - 0.000001) == Ok(Level5000("07NC00"))
  {
    Frame5000_07NC00();
    FromPointOfExtent(Level5000("07NC00"), FrameExtent(-80000, -93000, -76000, -90000), -80000.0, -90000.0 - 0.000001);
  }

  lemma FromLevelXy5000_07NC09()
    ensures FromLevelXy(7, L5000, -40000.0 - 0.000001, -90000.0 - 0.000001) == Ok(Level5000("07NC09"))
  {
    Frame5000_07NC09();
    FromPointOfExtent(Level5000("07NC09"), FrameExtent(-44000, -93000, -40000, -90000), -40000.0 - 0.000001, -90000.0 - 0.000001);
  }

  lemma FromLevelXy5000_07NC99()
    ensures FromLevelXy(7, L5000, -40000.0 - 0.000001, -120000.0) == Ok(Level5000("07NC99"))
  {
    Frame5000_07NC99();
    FromPointOfExtent(Level5000("07NC99"), FrameExtent(-44000, -120000, -40000, -117000), -40000.0 - 0.000001, -120000.0);
  }

  lemma FromLevelXy5000_07NC90()
    ensures FromLevelXy(7, L5000, -80000.0, -120000.0) == Ok(Level5000("07NC90"))
  {
    Frame5000_07NC90();
    FromPointOfExtent(Level5000("07NC90"), FrameExtent(-80000, -120000, -76000, -117000), -80000.0, -120000.0);
  }

  lemma FromLevelXy5000_07NC45()
    ensures FromLevelXy(7, L5000, -60000.0, -105000.0) == Ok(Level5000("07NC45"))
  {
    Frame5000_07NC45();
    FromPointOfExtent(Level5000("07NC45"), FrameExtent(-60000, -105000, -56000, -102000), -60000.0, -105000.0);
  }

  lemma FromLevelXy5000_07NC44()
    ensures FromLevelXy(7, L5000, -64000.0, -105000.0) == Ok(Level5000("07NC44"))
  {
    Frame5000_07NC44();
    FromPointOfExtent(Level5000("07NC44"), FrameExtent(-64000, -105000, -60000, -102000), -64000.0, -105000.0);
  }

  lemma FromLevelXy5000_07NC55()
    ensures FromLevelXy(7, L5000, -60000.0, -108000.0) == Ok(Level5000("07NC55"))
  {
    Frame5000_07NC55();
    FromPointOfExtent(Level5000("07NC55"), FrameExtent(-60000, -108000, -56000, -105000), -60000.0, -108000.0);
  }

  lemma FromLevelXy5000_07NC54()
    ensures FromLevelXy(7, L5000, -64000.0, -108000.0) == Ok(Level5000("07NC54"))
  {
    Frame5000_07NC54();
    FromPointOfExtent(Level5000("07NC54"), FrameExtent(-64000, -108000, -60000, -105000), -64000.0, -108000.0);
  }

  lemma FromLevelXy5000_07NC37()
    ensures FromLevelXy(7, L5000, -52000.0, -102000.0) == Ok(Level5000("07NC37"))
  {
    Frame5000_07NC37();
    FromPointOfExtent(Level5000("07NC37"), FrameExtent(-52000, -102000, -48000, -99000), -52000.0, -102000.0);
  }

  lemma FromLevelXy2500_07NC001()
    ensures FromLevelXy(7, L2500, -80000.0, -91500.0) == Ok(Level2500("07NC001"))
  {
    Frame2500_07NC001();
    FromPointOfExtent(Level2500("07NC001"), FrameExtent(-80000, -91500, -78000, -90000), -80000.0, -91500.0);
  }

  lemma FromLevelXy2500_07NC002()
    ensures FromLevelXy(7, L2500, -78000.0, -91500.0) == Ok(Level2500("07NC002"))
  {
    Frame2500_07NC002();
    FromPointOfExtent(Level2500("07NC002"), FrameExtent(-78000, -91500, -76000, -90000), -78000.0, -91500.0);
  }

  lemma FromLevelXy2500_07NC004()
    ensures FromLevelXy(7, L2500, -78000.0, -93000.0) == Ok(Level2500("07NC004"))
  {
    Frame2500_07NC004();
    FromPointOfExtent(Level2500("07NC004"), FrameExtent(-78000, -93000, -76000, -91500), -78000.0, -93000.0);
  }

  lemma FromLevelXy2500_07NC003()
    ensures FromLevelXy(7, L2500, -80000.0, -93000.0) == Ok(Level2500("07NC003"))
  {
    Frame2500_07NC003();
    FromPointOfExtent(Level2500("07NC003"), FrameExtent(-80000, -93000, -78000, -91500), -80000.0, -93000.0);
  }

  lemma FromLevelXy1000_07NC000A()
    ensures FromLevelXy(7, L1000, -80000.0, -90600.0) == Ok(Level1000("07NC000A"))
  {
    Frame1000_07NC000A();
    FromPointOfExtent(Level1000("07NC000A"), FrameExtent(-80000, -90600, -79200, -90000), -80000.0, -90600.0);
  }

  lemma FromLevelXy1000_07NC000E()
    ensures FromLevelXy(7, L1000, -76800.0, -90600.0) == Ok(Level1000("07NC000E"))
  {
    Frame1000_07NC000E();
    FromPointOfExtent(Level1000("07NC000E"), FrameExtent(-76800, -90600, -76000, -90000), -76800.0, -90600.0);
  }

  lemma FromLevelXy1000_07NC004E()
    ensures FromLevelXy(7, L1000, -76800.0, -93000.0) == Ok(Level1000("07NC004E"))
  {
    Frame1000_07NC004E();
    FromPointOfExtent(Level1000("07NC004E"), FrameExtent(-76800, -93000, -76000, -92400), -76800.0, -93000.0);
  }

  lemma FromLevelXy1000_07NC004A()
    ensures FromLevelXy(7, L1000, -80000.0, -93000.0) == Ok(Level1000("07NC004A"))
  {
    Frame1000_07NC004A();
    FromPointOfExtent(Level1000("07NC004A"), FrameExtent(-80000, -93000, -79200, -92400), -80000.0, -93000.0);
  }

  lemma FromLevelXy1000_07NC002C()
    ensures FromLevelXy(7, L1000, -78400.0, -91800.0) == Ok(Level1000("07NC002C"))
  {
    Frame1000_07NC002C();
    FromPointOfExtent(Level1000("07NC002C"), FrameExtent(-78400, -91800, -77600, -91200), -78400.0, -91800.0);
  }

  lemma FromLevelXy500_07NC0000()
    ensures FromLevelXy(7, L500, -80000.0, -90300.0) == Ok(Level500("07NC0000"))
  {
    Frame500_07NC0000();
    FromPointOfExtent(Level500("07NC0000"), FrameExtent(-80000, -90300, -79600, -90000), -80000.0, -90300.0);
  }

  lemma FromLevelXy500_07NC0009()
    ensures FromLevelXy(7, L500, -76400.0, -90300.0) == Ok(Level500("07NC0009"))
  {
    Frame500_07NC0009();
    FromPointOfExtent(Level500("07NC0009"), FrameExtent(-76400, -90300, -76000, -90000), -76400.0, -90300.0);
  }

  lemma FromLevelXy500_07NC0099()
    ensures FromLevelXy(7, L500, -76400.0, -93000.0) == Ok(Level500("07NC0099"))
  {
    Frame500_07NC0099();
    FromPointOfExtent(Level500("07NC0099"), FrameExtent(-76400, -93000, -76000, -92700), -76400.0, -93000.0);
  }

  lemma FromLevelXy500_07NC0090()
    ensures FromLevelXy(7, L500, -80000.0, -93000.0) == Ok(Level500("07NC0090"))
  {
    Frame500_07NC0090();
    FromPointOfExtent(Level500("07NC0090"), FrameExtent(-80000, -93000, -79600, -92700), -80000.0, -93000.0);
  }

  lemma FromLevelXy500_07NC0044()
    ensures FromLevelXy(7, L500, -78400.0, -91500.0) == Ok(Level500("07NC0044"))
  {
    Frame500_07NC0044();
    FromPointOfExtent(Level500("07NC0044"), FrameExtent(-78400, -91500, -78000, -91200), -78400.0, -91500.0);
  }

  lemma FromLevelXy500_07NC0045()
    ensures FromLevelXy(7, L500, -78000.0, -91500.0) == Ok(Level500("07NC0045"))
  {
    Frame500_07NC0045();
    FromPointOfExtent(Level500("07NC0045"), FrameExtent(-78000, -91500, -77600, -91200), -78000.0, -91500.0);
  }

  lemma FromLevelXy500_07NC0055()
    ensures FromLevelXy(7, L500, -78000.0, -91800.0) == Ok(Level500("07NC0055"))
  {
    Frame500_07NC0055();
    FromPointOfExtent(Level500("07NC0055"), FrameExtent(-78000, -91800, -77600, -91500), -78000.0, -91800.0);
  }

  lemma FromLevelXy500_07NC0054()
    ensures FromLevelXy(7, L500, -78400.0, -91800.0) == Ok(Level500("07NC0054"))
  {
    Frame500_07NC0054();
    FromPointOfExtent(Level500("07NC0054"), FrameExtent(-78400, -91800, -78000, -91500), -78400.0, -91800.0);
  }

  /** System 20 is in the range of a `u8` but not of the pattern: as written,
      level 5000 reports the error and level 2500 panics at the point (0, 0). */
  lemma SystemTwentyPanics()
    ensures FromLevelXyAsWritten(20, L5000, 0.0, 0.0) == Err(InvalidFrameCode)
    ensures FromLevelXyAsWritten(20, L2500, 0.0, 0.0) == Panic
    ensures FromLevelXy(20, L2500, 0.0, 0.0) == Err(InvalidFrameCode)
  {
    AsWrittenPanicsOnSystem(20, L5000, 0.0, 0.0);
    AsWrittenPanicsOnSystem(20, L2500, 0.0, 0.0);
    FromLevelXyRejectsSystem(20, L2500, 0.0, 0.0);
  }
}
